# A verified model of the IMBT watch-catalogue scraper

The scraper reads the `products.json` feed of one online watch shop. It reads the feed page by page,
250 products to a page. It drops accessories by keyword. Each remaining product becomes one row of a
fixed 34-column schema, and a "raw" row that keeps the product's JSON is written beside it. Both tables
are uploaded to a cloud bucket, each under a timestamped name and a "latest" name. Every exception that
reaches `run_scraper` ends as a status report and, when a webhook is set, a Slack alert. Two Python files make up the core:

- `scraper.py`: the keyword filter, HTML stripping, the field mapper, the page loop and `run_scraper`;
- `dlg.py`: object naming and upload in `save_to_gcs`, and the alert payload of `send_slack_notification`.

The Dafny modules follow that structure:

| file | module | models |
|---|---|---|
| wrappers.dfy | `Wrappers` | `Option` and `Result` |
| text.dfy | `Text` | the Python `str` operations the code uses: `isspace`, `lower`/`upper`, `strip`, `in`, `split`/`join`, `s[:n]`, `str(int)` |
| catalog.dfy | `Catalog` | the product, the parsed and raw rows, the store constants, the configuration |
| html.dfy | `Html` | `_strip_html`, with both regular-expression substitutions written as character scans |
| filter.dfy | `Filter` | `EXCLUDE_KEYWORDS` and `_is_watch_product` |
| mapper.dfy | `Mapper` | `map_product_to_parsed_row` and the raw row |
| paginator.dfy | `Paginator` | `fetch_page`, and the `while True` loop of `fetch_all_data` as a method with loop invariants |
| dlg.dfy | `Dlg` | `save_to_gcs`, and `send_slack_notification` with its field-building loop |
| runner.dfy | `Runner` | `run_scraper` and `notify_error` |

Things the code gets from the outside world are parameters:

- The store's answers are a `Feed`. Entry `k - 1` answers the request for page `k`. `None` is a request
  that raised, and every page past the end is empty.
- The clock gives the extraction date and the file timestamps, as strings. Each call of `save_to_gcs`
  reads the clock itself, so the raw and the parsed table each get their own timestamp. The clock also
  gives the alert's `ts`, as an integer.
- The storage client is an `UploadFault` input naming the upload that raises, and what it raises.
- The webhook post is a success flag.
- The three `json.dumps` calls are the functions of a `JsonEncoders` value.

Side effects are returned as values: the list of pages requested, the uploads made, and the alert
posted.

Behaviour of the code worth knowing, as the model states it:

- `fetch_page` catches every `RequestException`. With `requests` 2.27 or later, that includes the
  exception `response.json()` raises on a body that is not JSON. A failed page therefore ends the
  loop, and the rows of the earlier pages are still uploaded (`Paginator.FailedPageKeepsEarlierRows`).
  An error on a page never reaches the timeout, HTTP, connection or JSON handlers of `run_scraper`.
  In the model, those handlers get the storage client's exception.
- A full page followed by a short page takes two requests (`Paginator.FullThenShortPage`).
- `main_image` is `images[0].get("src")` and `reference_number` is `variants[0].get("sku")`. Either
  can be `None` when that member is missing, so both are `Option<string>` in `ParsedRow`.
- The two modules read `PLATFORM_ID` with different defaults: `"imbt"` in the scraper and `"example"`
  in the helpers. When the variable is unset, the alert's title and its "Platform" field name
  different platforms (`Runner.PlatformIdsAgree`).
- The HTTP handler of `run_scraper` tests the response's truthiness. It therefore reports 500 for
  every error status (see "## Findings"). The run model reports the response's own status instead.

## Model

| member | source | states |
|---|---|---|
| Filter.KeywordsOf | scraper.py:27-34 | every keyword is non-empty, has no surrounding whitespace and has no upper-case letter |
| Filter.KeywordsOfMembers | scraper.py:27-34 | a string is a keyword exactly when it is the stripped, lower-cased form of a comma-separated piece that is not blank |
| Filter.ScraperConfig | scraper.py:20-34 | the configured exclude keywords are all normalised; the pieces are those of `Text.Split`, which `Text.JoinSplit` ties back to the setting |
| Text.JoinSplit | scraper.py:29-32 | joining the comma-separated pieces of the setting with commas gives back the setting, so the pieces keep every character of it, in order |
| Filter.AnyKeywordIn | scraper.py:70 | true exactly when some keyword occurs as a substring of the haystack |
| Filter.HaystackIsLowerDescription | scraper.py:64-69 | the searched text, lower-cased part by part, equals the lower-cased `"{title} {product_type} {tags} {vendor}"` |
| Filter.IsWatchProductIff | scraper.py:63-74 | a product is kept exactly when no keyword is a substring of its lower-cased description |
| Filter.ExcludedTagDropsProduct | scraper.py:66-72 | a product with a tag containing a keyword, in any letter case, is dropped |
| Filter.KeepWatchesMembers | scraper.py:212-214 | a product survives filtering exactly when it was on the page and the filter keeps it |
| Filter.KeptAppend | scraper.py:205-229 | filtering two runs of pages in turn is filtering their concatenation |
| Html.StripHtmlShape | scraper.py:57-61 | empty input gives `""`; otherwise the output has no whitespace at either end, only single plain spaces, and no `<...>` tag left |
| Html.ReplaceTagsLeavesNoTag | scraper.py:60 | after the tag substitution no match of `<[^>]+>` remains |
| Html.CollapseSpacing | scraper.py:61 | after the whitespace substitution the text is empty only for empty input, and has only plain spaces, never two in a row |
| Html.CollapseTagFromInput | scraper.py:61 | collapsing whitespace cannot create a tag |
| Html.StripHtmlKeepsPlainText | scraper.py:57-61 | trimmed text with no `<` and only single spaces comes back unchanged |
| Mapper.ProductId | scraper.py:79 | `""` exactly for a missing id or the falsy id 0; otherwise the text parses back to the id |
| Mapper.ProductUrlRoundTrip | scraper.py:77-78 | the URL is empty exactly when the stripped handle is; otherwise it is `BASE_URL + "/products/"` followed by the stripped handle, which reads back from it |
| Mapper.AnyVariantAvailable | scraper.py:83 | true exactly when some variant has `available` true |
| Mapper.Availability | scraper.py:82-85 | "in stock" exactly when some variant is available; with no variants, when the product's own flag is true; "out of stock" otherwise |
| Mapper.Prices | scraper.py:88-99 | no variants gives two empty strings; otherwise both prices come from the first variant, and the full price is empty exactly when it is empty or equals the price |
| Mapper.PricesFromFirstVariantOnly | scraper.py:93-94 | variants after the first never change the prices |
| Mapper.Sources | scraper.py:104 | the secondary image list keeps exactly the set, non-empty sources, and never more than there were images |
| Mapper.SourceOf | scraper.py:104 | one image contributes its `src` when it is set and not empty, and nothing otherwise |
| Mapper.SourcesAppend | scraper.py:104 | the sources of two runs of images are those of the first run followed by those of the second, so order and repeats are kept |
| Mapper.MapProductImages | scraper.py:102-104 | the main image is the first image's `src` (`""` with no image); the secondary column encodes the sources of the later images, and is `""` when there are none |
| Catalog.Record | scraper.py:120-168 | the dictionary of any row has exactly the column names of `PARSED_COLUMNS`, in that order |
| Mapper.MapProductDomainColumnsEmpty | scraper.py:120-168 | every row, as the mapper's dictionary, has the same 34 columns in the same order, and each of the sixteen domain columns holds `""` |
| Mapper.MapProductSeller | scraper.py:110-112 | every row names the configured platform as platform and seller id, and the store as seller name and URL |
| Mapper.MapProductColumns | scraper.py:77-147 | the row's id, URL, availability, prices and stripped description are the ones the rules above give; name, brand and collection are the stripped title, vendor and type; the reference number is the first variant's `sku` (`""` with no variant); the specifications encode the tags and type |
| Mapper.MakeRawRow | scraper.py:217-224 | the raw row carries the same product id and URL as the parsed row, and the run's platform and date, and the product's JSON |
| Paginator.FetchPage | scraper.py:173-193 | a failed request gives `None`; otherwise the page's products, and a page count one past the page exactly when the page is full |
| Paginator.ContinuesIffFull | scraper.py:209-229 | the loop moves to the next page exactly after a full page |
| Paginator.LastPage | scraper.py:205-229 | the last page requested is one the loop does not continue from |
| Paginator.ContinuesBeforeLastPage | scraper.py:226-229 | the loop continues after every page before the last one |
| Paginator.StopsAtFirstShortPage | scraper.py:209-229 | every page before the last one requested was full; the last one failed, was empty or was short |
| Paginator.RunUpTo | scraper.py:205-229 | after full pages up to a page that is not full, the run stops at that page and reads the products of exactly those pages |
| Paginator.FailedPageKeepsEarlierRows | scraper.py:189-191 | a failed request after full pages ends the run and keeps the products of the earlier pages |
| Paginator.FullThenShortPage | scraper.py:187 | a full page followed by a short one takes two requests and reads both pages |
| Paginator.FirstPagesAt | scraper.py:202-229 | the `i`-th request asks for page `i + 1` |
| Paginator.RowsInLockstep | scraper.py:212-224 | raw and parsed rows have the same count and the same product id and URL at each position |
| Paginator.MapPage | scraper.py:212-224 | the rows a page adds are the parsed and raw rows of the page's kept products, in order |
| Paginator.ReadPages | scraper.py:196-231 | the requests are pages 1 to the last page; the rows are those of the kept products of every page read |
| Paginator.FetchAllData | scraper.py:196-231 | the parsed and raw rows are those of the products `_is_watch_product` keeps from the pages read |
| Dlg.ObjectName | dlg.py:77-82 | an object name is the prefix part and platform, then the stamp, then `"." + extension` |
| Dlg.ObjectNameInjective | dlg.py:77-82 | two names with the same prefix, platform and extension are equal exactly when their stamps are |
| Dlg.FilenameIsNotLatest | dlg.py:77-82 | the timestamped name equals the latest name only when the timestamp is `latest` |
| Dlg.PrefixedNames | dlg.py:77-82 | an empty or missing prefix gives the unprefixed name; a non-empty prefix starts the name with `prefix + "_"` |
| Dlg.SaveToGcs | dlg.py:43-103 | a missing path and a non-file fail with their messages before any upload; otherwise the timestamped object is uploaded, then the latest one only when `save_latest`; an upload that raises ends the save; success returns `gs://{bucket}/{folder}/{timestamped name}` |
| Dlg.SaveReturnsTimestampedPath | dlg.py:89-103 | the returned path is never the latest object's path |
| Dlg.StatusStyles | dlg.py:147-163 | the four statuses have four different colours and an emoji each; any other status gets the info colour and no emoji |
| Dlg.FieldOf | dlg.py:171-175 | a field has the key as title, `str(value)` as value, and is short exactly when that text is under 30 characters |
| Dlg.BuildFields | dlg.py:169-175 | one field per details entry, in order; no details give no fields |
| Dlg.SendSlackNotification | dlg.py:109-186 | with no webhook nothing is posted and the result is false; otherwise one attachment is posted with the status colour, title, message, time and fields, and the result is whether the post succeeded |
| Runner.Classify | scraper.py:271-300 | a timeout gives 504, an HTTP error the response's status (500 without one; the corrected reading of line 278), a connection error 503, a JSON error 502 and anything else 500, each with its own error name and `str(e)` as detail |
| Runner.ClassifyAsWritten | scraper.py:271-300 | as `Classify`, except that an HTTP error gets the status as line 278 computes it |
| Runner.ClassifyReadingsDiffer | scraper.py:278 | the two reports differ exactly for an HTTP error whose response has a status from 400 to 599 other than 500; a 404 gives 500 as written and 404 corrected |
| Runner.ClassifyReportsFailures | scraper.py:271-300 | every reported status is 400 or more, and the error name tells which handler ran |
| Runner.HttpStatusOfRaisedError | scraper.py:278 | for a response with a status from 400 to 599, the status as written is 500, and the corrected status is the response's |
| Runner.HttpStatusAsWrittenLosesNotFound | scraper.py:278 | a 404 response is reported as 500 by the status as written |
| Runner.HttpStatusReadingsAgree | scraper.py:278 | the two readings agree exactly for no response, a status outside 400 to 599, or a 500 response |
| Runner.NotifyError | scraper.py:45-55 | an "error" alert titled "Scraper failed: " with the error type, with fields Platform, Status and the error cut to 500 characters, posted to the `SLACK_WEBHOOK_URL` webhook |
| Runner.Fail | scraper.py:271-300 | a handler reports the exception's classification and, when a webhook is set, posts exactly the error alert of that report to the `SLACK_WEBHOOK_URL` webhook, with the error cut to 500 characters |
| Runner.PlatformIdsAgree | scraper.py:20 | the scraper and the helpers use the same platform id exactly when `PLATFORM_ID` is set |
| Runner.Publish | scraper.py:252-269 | the raw table and then the parsed table are saved; success reports the row count, 34 columns and both timestamped URLs, each with the stamp its own save read; the first upload that raises gives that exception's report and the error alert of that report, posted to the `SLACK_WEBHOOK_URL` webhook; upload `k` goes to the configured bucket, under the raw table's names for `k < 2` and the parsed table's after, the timestamped name for even `k` and the latest name for odd `k` |
| Runner.RunScraper | scraper.py:237-300 | no kept product gives 204 with no upload and no alert; otherwise four uploads and 200 with the kept-product count and the two tables' URLs, or the failing upload's report with at most one alert, which is the error alert of that report posted to the `SLACK_WEBHOOK_URL` webhook; the uploads go to the configured bucket under the names of `Runner.Publish` |

## Left out

- HTTP requests, the random user agent, the `time.sleep` throttle and `print` are not modelled.
  The store's answers are the `Feed` parameter, and the post's outcome is a flag.
- `datetime.now()` is not modelled. The date strings and the alert time are parameters.
- pandas and the CSV files are not modelled. Writing a table only makes its local path a regular file.
  `len(parsed_df.columns)` is taken as the 34 columns every row has.
- The storage client is not modelled. An upload is a recorded `Upload` value, and a failing upload is
  an input.
- The output of `json.dumps` for `secondary_images`, `product_specifications` and `raw_json` is not
  modelled. The `JsonEncoders` functions stand for it.
- The `requests` exception hierarchy is reduced to the five kinds the handlers tell apart. An
  exception that is both a timeout and a connection error, such as `ConnectTimeout`, is not modelled.
  It would take the timeout handler, which is the first one.
- `Text.Lower` and `Text.Upper` map only ASCII letters. Python's `str.lower` and `str.upper` map all of
  Unicode, including characters that change length.
- `Dlg.Display`: details values are strings and integers only, the two kinds `notify_error` passes.
  `str()` of other types is not modelled.
- `Mapper.MapProduct` carries no contract of its own. Its columns are stated by
  `Mapper.MapProductColumns`, `Mapper.MapProductSeller`, `Mapper.MapProductImages` and
  `Mapper.MapProductDomainColumnsEmpty`, which together cover every column.
- Runner.Classify: uses the corrected HTTP status of "## Findings", not the status line 278 computes,
  and so do `Runner.Fail`, `Runner.Publish` and `Runner.RunScraper`. For an HTTP error with a status
  from 400 to 599 other than 500, the code reports 500. That reading is `Runner.ClassifyAsWritten`.
- Runner.RunScraper: the typed `Feed` and `Product` leave out inputs that make the page loop raise
  outside `fetch_page`'s handler. Examples are a page body that is JSON but not an object, where
  `data.get` raises, and a product with a title or tag that is not a string, or an image that is not
  an object. In the code, such an exception reaches the last handler of `run_scraper`: the run
  reports 500 and sends one alert. The model's run fails only through the uploads.
- Paginator.ReadPages: the `Feed` is finite, and every page past its end is empty, so the loop always
  ends. The loop of `fetch_all_data` has no page limit. Against a store that answers every page full
  (one that ignores `page`, say), it never ends. That run is not modelled.
- `Runner.RunScraper` and `Runner.Publish`: exceptions from pandas or from writing the CSV files
  are not modelled. Only the storage client's failures reach the handlers.

## Findings

| source | as written | input that shows it | evidently intended | confidence | as-written member | corrected member |
|---|---|---|---|---|---|---|
| scraper.py:278 | `e.response.status_code if e.response else 500` tests the response's truthiness, and a `requests` response is falsy exactly when its status is from 400 to 599 | an `HTTPError` from `raise_for_status` on a 404 response is reported as 500, not 404 (`Runner.HttpStatusAsWrittenLosesNotFound`; every status from 400 to 599 gives 500 by `Runner.HttpStatusOfRaisedError`; `Runner.ClassifyReadingsDiffer`) | report the response's own status whenever the error carries a response (`e.response is not None`) | medium, not executed | Runner.ClassifyAsWritten | Runner.Classify |
