# Olive Young review scraper — a verified model of its core

The repository scrapes product reviews from the Olive Young shop. A browser
session is obtained first. Then the reviews JSON endpoint is paged through
(`fetch_reviews`), each raw review is flattened into a 15-column row
(`process_reviews`), and the raw list and the table are saved under
timestamped file names (`save_results`). The same pipeline exists three times:

- olive_scraper.py, with a cancellation callback;
- news.py, without cancellation;
- test.py, an earlier script with one request per page and a slightly
  different record mapping.

The GUI (olive_gui.py) checks its two input fields before starting a run.

The model has one Dafny module per concern:

| module | file | models |
|---|---|---|
| `Py` | py.dfy | the Python values the scripts handle: JSON values (dicts keep their key order), truthiness, `dict.get`, `or`, iteration, `str.strip`, `lower`, `in`, `join`, `str(int)` (ASCII digits), and `int(str)`, which reads any Unicode decimal digit and refuses more than 4300 digits |
| `Pagination` | pagination.dfy | the page loop and attempt loop of `fetch_reviews` as a specification (`Fetch`), the checks after the attempts (`Classify`), and the properties of a run |
| `OliveScraper` | olive_scraper.dfy | olive_scraper.py's `fetch_reviews` as imperative loops, proved equal to `Fetch` |
| `News` | news.dfy | news.py's `fetch_reviews`, the same loops without cancellation, proved equal to `Fetch` with a callback that never cancels |
| `Normalizer` | normalizer.dfy | `process_reviews` of olive_scraper.py and news.py (the two are the same code): the per-field rules as functions, and the loops as methods proved against them |
| `SavePlan` | save_plan.dfy | the files `save_results` writes (names, order, contents) and the `%Y%m%d_%H%M%S` timestamp |
| `TestScript` | test_script.dfy | test.py's `get_all_reviews` and its `process_reviews` variant, related to the other two scripts |
| `Gui` | gui.dfy | `extract_product_id` and the input checks of `start_collection` |

HTTP is an oracle. `Server(page, attempt)` gives either a failure (an
exception from `session.get`) or a response with a status, a content type,
the body text, and the decoded JSON body (absent when decoding fails). A run
is its `Outcome` (the returned list, or the TypeError that escapes) together
with its trace of `Event`s:

- every GET, with its page and attempt number;
- every wait, with its reason (the sleeps themselves are not modelled).

Cancellation is a `StopCheck` oracle. It is asked at each `Checkpoint`
(`PageStart`, `BeforeAttempt`) where olive_scraper.py calls `stop_check()`.
Its answers are not events.

For each page the loops are proved equal to the specification, and the
specification's properties are proved once for all three scripts.

Four behaviours of the code a reader may not expect:

- After its retries a page answered 429 or 403 is not retried: the code waits
  once and moves on to the next page. The log line at olive_scraper.py:171
  announces a retry after the wait, but the `continue` at olive_scraper.py:178
  goes to the next page.
- A soft block (an HTML page instead of JSON) after page 1 skips the page
  after a wait; it is not retried.
- A cancellation inside the attempt loop returns `[]`, dropping what was
  collected. Only a cancellation at the top of a page returns the
  accumulated list.
- An exception in the attempt loop keeps the previous attempt's response
  (possibly an earlier non-200 one) as the response the page is judged by.

## Model

| member | source | states |
|---|---|---|
| `OliveScraper.FetchReviews` | olive_scraper.py:101-218 | the page loop, with its cancellation checks, `continue`, `break` and early returns, produces exactly the run `Fetch` specifies: the same returned list or exception and the same trace of requests and waits |
| `OliveScraper.RetryPage` | olive_scraper.py:142-161 | the `while retry < max_retries` loop, with a cancellation check before each attempt, gives exactly the attempts, kept response and cancellation the specification `Attempts` describes |
| `News.FetchReviews` | news.py:107-206 | news.py's page loop produces exactly `Fetch` with a cancellation callback that never fires |
| `News.RetryPage` | news.py:144-158 | news.py's attempt loop gives exactly `Attempts` with no cancellation |
| `News.NeverStopOutcome` | news.py:112-206 | without cancellation the run returns the reviews of the pages before the first page that does not continue, in page order, unless that page's own verdict aborts with `[]` or raises |
| `Pagination.JudgePage` | olive_scraper.py:165-211 | the checks after the attempts, in source order: a missing or non-200 response skips the page, with one extra wait exactly for 429 or 403; a 200 returns `[]` exactly for a soft block on page 1 or an undecodable body on pages 1-3, and those cases skip after a wait on later pages; a decoded body is kept exactly when it is a dict with a non-empty iterable `gdasList`, whose elements are the items; it raises exactly for a scalar, for a list or string holding the key, or for a non-iterable `gdasList`; any other body stops the loop |
| `Pagination.FetchOutcome` | olive_scraper.py:106-218 | the list returned is the concatenation, in page order, of the `gdasList` of each kept page before the first page that does not continue. That page then decides the outcome: a cancellation at its top keeps the list, a cancellation in its attempts gives `[]`, an abort gives `[]`, a crash raises, and a stop keeps the list |
| `Pagination.FirstEndIsFirst` | olive_scraper.py:106-218 | every page before the one that ends the run was skipped or kept, so the run ends at the first page that does not continue |
| `Pagination.FirstEndBounds` | olive_scraper.py:106 | the page that ends the run lies between 1 and `total_pages + 1`, and if it is a real page it does not continue |
| `Pagination.FetchStopsAt` | olive_scraper.py:197-204 | no page after the first one that stops, aborts, raises or is cancelled is ever requested |
| `Pagination.FetchRange` | olive_scraper.py:106-152 | only pages `1..total_pages` are requested (`pageIdx = page`), each with attempt numbers below 3 |
| `Pagination.FetchOrdered` | olive_scraper.py:106-161 | requests go out in strictly increasing (page, attempt) order |
| `Pagination.AttemptsRange` | olive_scraper.py:142-161 | every GET of a page's attempt loop is for that page, with attempt number in `retry..2` |
| `Pagination.AttemptsConsecutive` | olive_scraper.py:142-161 | attempts are made without gaps: if attempt k was made, every earlier attempt was made |
| `Pagination.AttemptsStopAtOk` | olive_scraper.py:150-153 | the attempt loop exits on the first 200: no attempt follows one that got it |
| `Pagination.AttemptsExhausted` | olive_scraper.py:142-161 | unless cancelled, a page whose kept response is missing or not 200 used all 3 attempts |
| `Pagination.OkFromServer` | olive_scraper.py:150-153 | a 200 response kept by the loop is the server's answer to one of the page's GETs |
| `Pagination.NeverCancelled` | news.py:147-158 | with a callback that never fires, the attempt loop is never cancelled |
| `Pagination.FailedPageSkipped` | olive_scraper.py:165-178 | a page still without a 200 after its attempts adds nothing and the loop goes on to the next page with the same list, after the page pause and one extra wait exactly for 429 or 403 (`FailurePause`) |
| `Pagination.AbortCases` | olive_scraper.py:180-211 | `return []` after the attempts happens exactly for a soft block on page 1 and for an undecodable body on pages up to 3 |
| `Pagination.LateFailuresSkip` | olive_scraper.py:180-211 | a soft block after page 1, or an undecodable body after page 3, skips the page after a wait |
| `Pagination.KeepCases` | olive_scraper.py:190-204 | a decoded page is kept exactly when it is a dict whose `gdasList` is a non-empty iterable, and the kept items are its elements in order |
| `Pagination.HaltCases` | olive_scraper.py:197-204 | for a dict body, the loop stops exactly when `gdasList` is missing or empty |
| `Pagination.CrashCases` | olive_scraper.py:192-194 | `'gdasList' in data`, `data['gdasList']` and `extend` raise TypeError exactly for scalars, for lists or strings that contain the key, and for a non-iterable `gdasList` |
| `Normalizer.ProcessReviews` | olive_scraper.py:221-275 | the loop returns exactly `Table(reviews)`: the rows of the reviews whose processing does not raise, in input order |
| `Normalizer.NormalizeReview` | olive_scraper.py:223-273 | the `try` body for one review gives exactly the row, or the first exception, that `NormalizeRecord` specifies |
| `Normalizer.CollectPhotoUrls` | olive_scraper.py:232-238 | the photo loop builds the image-host URL of each attachment with a truthy path, in order, or raises as the specification says |
| `Normalizer.CollectSkinValues` | olive_scraper.py:244-246 | the `addInfoNm` loop collects every entry's `mrkNm` in order, or raises for a non-dict entry |
| `Normalizer.SelectionGivesRows` | olive_scraper.py:221-275 | the k-th row is the row of the k-th review that does not raise |
| `Normalizer.SelectionIncreases` | olive_scraper.py:221-275 | the reviews that give rows are taken in increasing input position |
| `Normalizer.SelectionIsExact` | olive_scraper.py:271-273 | a review gives a row exactly when its processing does not raise |
| `Normalizer.CollectAppend` | olive_scraper.py:222-275 | the table of two lists joined is the two tables joined |
| `Normalizer.CollectEmpty` | olive_scraper.py:221-275 | the table is empty exactly when every review raises (in particular for an empty input) |
| `Normalizer.CollectTotal` | olive_scraper.py:221-275 | when no review raises there is exactly one row per review, in order |
| `Normalizer.NamesFallBack` | olive_scraper.py:225-226 | author and id are never falsy; a falsy nickname takes the (possibly defaulted) member id, and a falsy id becomes '알 수 없음' |
| `Normalizer.RatingIsHalfScore` | olive_scraper.py:227-228 | twice the rating is the integer score, so a score in 0..10 gives a rating in 0..5 |
| `Normalizer.ContentIsClean` | olive_scraper.py:230 | the text has no `<br/>` left and no surrounding whitespace; a falsy `gdasCont` gives '', and a truthy one is the string with tags replaced by line breaks, then stripped |
| `Normalizer.PhotoUrlsShape` | olive_scraper.py:232-238 | the k-th URL is the image host followed by the formatted k-th truthy `appxFilePathNm` (`PathsOf`), and there are no other URLs |
| `Normalizer.SkinValuesShape` | olive_scraper.py:244-246 | the skin-info loop succeeds exactly when every entry is a dict, and then gives each entry's `mrkNm` (default '') in order |
| `Normalizer.ListColumns` | olive_scraper.py:232-238 | the 사진URL column is the `;`-join of the image host plus each truthy path, and the 피부정보 column is the `', '`-join of each skin entry's `mrkNm`, which are strings whenever the row exists |
| `Normalizer.HostUrls` | olive_scraper.py:238 | one URL per path, each under the image host |
| `Normalizer.PhotoMarksAgree` | olive_scraper.py:236-238 | 포토리뷰 and 있음 go together, and they depend only on `photoList` being truthy |
| `Normalizer.PhotoWithoutPath` | olive_scraper.py:232-238 | attachments without paths still make a photo review, with an empty URL column |
| `Normalizer.RankBadge` | olive_scraper.py:240-243 | "TOP {rank}위" is shown exactly for a positive rank (or `True`), and '일반' otherwise; a truthy non-number raises |
| `Normalizer.FlagsFollowSentinels` | olive_scraper.py:247-252 | 재구매 iff `firstGdasYn` is 'N'; 한달이상사용 iff `renewUsed1mmGdasYn` is 'Y'; 오프라인구매 iff `ordNo` is a non-empty string not starting with 'Y'; each is 예 or 아니오 |
| `Normalizer.WorkedExample` | olive_scraper.py:254-270 | a review with no nickname, score 8, a text with one `<br/>`, no photos and the three sentinels set gives the expected complete row |
| `SavePlan.Plan` | olive_scraper.py:278-297 | the raw JSON is always written first; the spreadsheet and processed JSON follow exactly when the table has rows, in that order, and both hold the table |
| `SavePlan.Stamp` | olive_scraper.py:280 | a timestamp is always eight digits, `_` and six digits, the shape a timestamp is read back from |
| `SavePlan.Pad` | olive_scraper.py:280 | a zero-padded field has exactly its width and only digits |
| `SavePlan.PlanSharesStamp` | olive_scraper.py:280-289 | every file of one save reads back the same product id and the same timestamp |
| `SavePlan.PlanNamesDistinct` | news.py:270-278 | the files of one save have pairwise different names |
| `SavePlan.RawNamesDiffer` | olive_scraper.py:281 | saves with different product ids or timestamps write different raw files |
| `SavePlan.NameRoundTrip` | olive_scraper.py:281-289 | a file name gives back the product id and timestamp it was built from |
| `SavePlan.StampRoundTrip` | olive_scraper.py:280 | `%Y%m%d_%H%M%S` of a representable time is 15 characters and reads back as that time |
| `SavePlan.ParseStampExact` | olive_scraper.py:280 | any text read as a timestamp is the timestamp of what it reads |
| `SavePlan.SaveAfterProcessing` | news.py:276-278 | after `process_reviews`, three files are written exactly when some review gives a row |
| `TestScript.GetAllReviews` | test.py:72-109 | the page loop returns exactly the list and the request sequence `GetAll` specifies |
| `TestScript.GetAllSpec` | test.py:83-109 | pages 1, 2, ... are requested once each, in order, up to and including the first page that raises or is empty (or up to `max_pages`); the list is the reviews of the pages before it, in page order; an error keeps what was collected |
| `TestScript.RequestsInOrder` | test.py:83-88 | the i-th request is for page i + 1, never past `max_pages` |
| `TestScript.BreakPageBounds` | test.py:92-107 | the page where the loop breaks is the first one that raises or gives no reviews |
| `TestScript.ProcessReviews` | test.py:113-229 | the loop returns exactly `TestTable(reviews)` |
| `TestScript.NormalizeReview` | test.py:125-219 | the `try` body for one review gives exactly the row or exception `Record` specifies |
| `TestScript.Names` | test.py:128-135 | the id defaults to '알 수 없음' and an empty nickname takes the id; the result equals the other scripts' single `or` chain |
| `TestScript.ReadList` | test.py:157-179 | `review.get(key, [])` read as a list gives what the other scripts' `get(key) or []` gives |
| `TestScript.RecordAgrees` | test.py:146 | for every review without a blank non-string `gdasCont`, test.py gives the same row or exception as the other scripts |
| `TestScript.RecordDropsBlank` | test.py:146 | a `gdasCont` present as `None` (or another falsy non-string) makes test.py drop the review, where the other scripts give empty content |
| `TestScript.RecordKeptByOlive` | test.py:217-219 | every row test.py keeps is the row the other scripts build |
| `TestScript.TablesAgree` | test.py:113-229 | with no blank `gdasCont`, test.py's table is the other scripts' table |
| `Gui.ExtractProductId` | olive_gui.py:300-318 | an id is never empty when one is returned, and an exception comes only from parsing a URL and is the parser's |
| `Gui.PlainInput` | olive_gui.py:312-318 | non-URL input is accepted exactly when it is `A` and twelve digits, and is then returned unchanged (length 13, starting with 'A'), whatever the query lookup |
| `Gui.UrlInput` | olive_gui.py:302-311 | a URL raises exactly when `urlparse` raises; otherwise it gives its `goodsNo` value exactly when there is a non-empty one, and nothing otherwise |
| `Gui.UrlValueUnchecked` | olive_gui.py:302-307 | a URL whose `goodsNo` is not a product id still yields that value |
| `Gui.PlainIdempotent` | olive_gui.py:313-315 | extracting again from an extracted plain id gives it back |
| `Gui.FullMatchPositions` | olive_gui.py:314 | `re.fullmatch` of a single-character-class pattern matches exactly the texts of the same length that match position by position |
| `Gui.IdPatternMeaning` | olive_gui.py:314 | `A[0-9]{12}` fully matches exactly 'A' followed by twelve ASCII digits |
| `Gui.StartCollection` | olive_gui.py:190-238 | the empty-input warning is given exactly for a blank product field; a started collection has the id `extract_product_id` gave, the page count `int()` gave (so at most 4300 digits), at least 1 page, and a ready output directory; an escaping exception is the one URL parsing raised |
| `Gui.Checks` | olive_gui.py:198-238 | the same, on the stripped input and the parsed page count, and the product id is not empty |
| `Gui.ProductCheckedFirst` | olive_gui.py:198-214 | an empty, unrecognised or unparsable product input ends the slot whatever the page count and the output directory |
| `Gui.MalformedUrlEscapes` | olive_gui.py:300-305 | a URL that `urlparse` cannot parse ends `start_collection` with that exception, whatever the other fields |
| `Gui.PaddingIgnored` | olive_gui.py:198-218 | whitespace around either input changes nothing: the product input is stripped and `int()` ignores it |
| `Gui.PageCount` | olive_gui.py:216-238 | with an accepted product, a page count `str(n)` is rejected when n < 1 or when it has more than 4300 digits; otherwise a collection of n pages starts exactly when the output directory is ready |
| `Gui.TypedProductId` | olive_gui.py:198-238 | a product id typed with surrounding spaces, a positive page count of at most 4300 digits and a ready output directory start a collection of that id; a longer page count is rejected as a bad page count |
| `Py.ParseAccepts` | olive_gui.py:218 | what `int()` accepts is a stripped, optionally signed run of Unicode decimal digits and underscores, and a negative result comes from a leading '-' |
| `Py.FullWidthDigits` | olive_gui.py:218 | `int()` reads full-width digits: "１００" is 100 |
| `Py.IntToStringRoundTrip` | olive_gui.py:218 | `int(str(i)) == i` for every integer of at most 4300 digits; the decimal text of a longer integer is a ValueError |
| `Py.ParseDigitRun` | olive_gui.py:218 | well-formed digits parse to their value when there are at most 4300 of them (underscores not counted), and are a ValueError otherwise |
| `Py.ParseNegativeRun` | olive_gui.py:218 | after a minus sign, `int()` reads digits ending in a digit exactly as it reads them unsigned, and negates the value; a ValueError stays a ValueError |
| `Py.NatToStringLength` | olive_gui.py:218 | `str(n)` has at most k digits exactly when n < 10^k, so the 4300-digit limit is n < 10^4300 |
| `Py.DictTruthiness` | olive_scraper.py:232 | for a decoded dict, truthiness by its key list is truthiness by its mapping |
| `Py.StripPadded` | olive_gui.py:198 | `strip` ignores any whitespace added around a text |

## Left out

- Browser and session acquisition (Selenium, Chrome start-up, Cloudflare wait, cookie and user-agent capture, `input()`) is not part of this model; the fetch loops take the server as a parameter.
- Real HTTP (sessions, headers, timeouts, TLS) is an oracle `Server(page, attempt)`. `session.get` raising is an attempt that `Failed`.
- `time.sleep` and `random.uniform` durations are left out; each sleep is a `Wait` event with its reason, not its length.
- Logging, `log_callback` and elapsed-time progress messages are left out.
- pandas, `to_excel`, `to_json` and `json.dump` are left out; the table is a sequence of `Row`s and `save_results` is the plan of files it writes. `df is None` is not modelled: both callers pass the table `process_reviews` returns.
- `urlparse` and `parse_qs` (percent-decoding, repeated keys) are a lookup parameter that gives the first `goodsNo` value, or the ValueError `urlparse` raises.
- Gui.StartCollection: `os.path.exists` and `os.makedirs` are one parameter saying whether the output directory is ready; the file system is not modelled. Disabling and re-enabling the buttons is not modelled either.
- The Qt window, its signals and message boxes, and the worker thread with its `is_running` flag are left out. Cancellation is the `StopCheck` oracle.
- new.py and the packaging scripts (build_exe.py, build_exe_safe.py, hooks/hook-seleniumbase.py) are not part of this model.
- test.py's `time.sleep` and `print` calls are left out, as are its header set-up and `auth_info` handling.
- Pagination.Classify: `not response` is read as `response is None or status >= 400`. Together with the `status != 200` test this is the same as "no response or status is not 200".
- Pagination.Classify: the content-type and `<html` tests lower-case ASCII letters only. For the patterns `json` and `<html` this agrees with Python's `lower()`.
- Normalizer.RatingIsHalfScore: the rating is an exact `real`, not a binary float. JSON floats are not modelled (`Json` has no float case), so only integer and boolean scores are halved; any other value raises TypeError.
- Normalizer.Format: the f-string of a photo path is modelled for `None`, booleans, integers and strings. For a list or dict path it raises TypeError instead of giving Python's repr, so URLs built from such paths are not modelled.
- Py.Lower: only ASCII letters are lowered.
- Py.IntToString: `str(i)` raises ValueError for an integer of more than 4300 digits; the model writes its digits anyway. It is used in three places. `Normalizer.Format` renders a photo path with it (olive_scraper.py:238), and `Normalizer.RankLabel` renders the rank badge (olive_scraper.py:243); for such an integer Python would drop the review, where the model keeps its row. The GUI lemmas about `int()` use it to build page-count text, which `int()` then refuses. The difference cannot arise in the program: `process_reviews` only gets the output of the JSON decoder, which never holds an integer of more than 4300 digits.
- JSON integers of more than 4300 digits, which Python's JSON decoder refuses, are not excluded from the decoded bodies the `Server` oracle gives; the decoder is part of the oracle. On such a body `json.loads` raises a plain ValueError, not a `JSONDecodeError`, so it escapes `fetch_reviews` (olive_scraper.py:205 and news.py:195 catch only `JSONDecodeError`). The model instead judges the body as decoded.
- SavePlan.StampRoundTrip: `%Y` is modelled for years 1000-9999 only, where it is four digits.
- SavePlan.Stamp: outside years 1000-9999 the model still writes four year digits, where `strftime` would not.
- `AgreesWithClassify`, `JudgeAs` and the `judge` parameters of the page loops are proof devices. The loops always call `Classify`.
