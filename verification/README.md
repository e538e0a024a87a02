# Keyword video scraper: verified model of its control logic

The scraper searches a video platform for each configured keyword, collects
the video links shown on the search page, and downloads each video with a
bounded retry. This project models the deterministic part of `scraper.py`
in Dafny and proves its properties:

- **Slug** — the save-directory name `keyword.replace(" ", "_").lower()`.
- **Links** — the href collection loop: it visits the first
  `min(total, MAX_VIDEO_PER_KEYWORD)` anchors and keeps each truthy href once.
  Duplicates and empty hrefs still use up a slot of that window.
- **Retry** — `process_video`: up to `MAX_RETRY` download attempts, a
  3-second cooldown after every failure, and a saved/skipped verdict.
- **Campaign** — the per-keyword driver loop of `main`, as a trace of
  events. The events are: context open, navigation, scroll, pause (with its
  `random_delay` bounds), video processed, context close.

The browser and the downloader are inputs. `Pages` gives the href values
the i-th keyword's search page shows (`None` is `Wrappers.None`).
`Downloader` gives the outcome of each numbered download attempt of a URL
found for the i-th keyword. `KEYWORDS`, `MAX_VIDEO_PER_KEYWORD` and
`MAX_RETRY` form the `Config` value. Both caps are unbounded integers, as in
Python: a cap of zero or less makes the corresponding `range` empty.

Three behaviours of the code are kept exactly, although a reader might expect otherwise:

- The long (8, 12) pause follows every keyword, the last one included.
- With cap 2 and hrefs `["/video/1", "/video/1", "/video/2"]` the collected
  list is `["/video/1"]`, not both links (`Links.DuplicateConsumesSlot`).
- A cooldown also follows the last failed attempt, before `False` is
  returned.

## Model

| member | source | states |
|---|---|---|
| Slug.KeywordSlug | scraper.py:76 | The slug has the keyword's length and holds no space and no upper-case ASCII letter. Each position is `_` where the keyword has a space, otherwise the lowered keyword character. |
| Slug.KeywordSlugIdempotent | scraper.py:76 | Deriving the slug of a slug gives the same slug. |
| Slug.KeywordSlugFixedPoint | scraper.py:76 | A string is its own slug exactly when it has no space and no upper-case ASCII letter. |
| Slug.ReplaceThenLowerCommute | scraper.py:76 | Replacing spaces and lowering give the same result in either order. |
| Slug.SameSaveDirectory | scraper.py:76 | Two keywords get the same slug exactly when they agree position by position up to ASCII case and space versus underscore. So distinct keywords can get the same slug, and equal slugs give the same save directory. |
| Links.Scan | scraper.py:101-105 | After visiting a sequence of hrefs, the list has no duplicates, is no longer than the sequence, and holds exactly the non-empty values present in it. |
| Links.CollectLinks | scraper.py:99-105 | The collected list is at most `min(total, cap)` long (empty for a cap of zero or less) and has no duplicates. It holds exactly the non-empty hrefs among the first `min(total, cap)` elements. |
| Links.ScanOrder | scraper.py:103-105 | The list after the loop holds the usable hrefs in order of their first occurrence. |
| Links.CollectLinksCharacterization | scraper.py:102-105 | A list equals the collected list if and only if it holds exactly the usable hrefs of the scan window, ordered by first occurrence. |
| Links.ScanFillsWindow | scraper.py:102-105 | The list is as long as the visited window exactly when every visited href is non-empty and differs from all earlier ones. Otherwise a slot is lost. |
| Links.DuplicateConsumesSlot | scraper.py:102-105 | With cap 2, hrefs `/video/1`, `/video/1`, `/video/2` give only `["/video/1"]`. |
| Links.CollectLinksLoop | scraper.py:99-105 | The loop returns the collected list. It reads the `href` of elements 0, 1, … up to `min(total, cap) - 1`, once each and in order, and no others. |
| Retry.FailedRoundsLayout | scraper.py:48-56 | Failed rounds alternate between attempt k and one 3-second cooldown, for k = 1, 2, … in order. |
| Retry.VideoTraceShape | scraper.py:47-59 | The call saves if and only if one of attempts 1..MAX_RETRY succeeds. If saved, the attempts are 1..n with n the first success, there are n-1 cooldowns, and nothing follows the success. If skipped, all attempts failed and there are MAX_RETRY attempts (0 if negative) and as many cooldowns, ending in a skip. |
| Retry.ProcessVideo | scraper.py:47-59 | The loop returns the verdict and the trace described above. The trace always ends in `Saved` or `Skipped`, so a download error never escapes the call. |
| Retry.FailTwiceThenSucceed | scraper.py:48-56 | A downloader that fails twice and then succeeds gives attempt, cooldown, attempt, cooldown, attempt, saved. |
| Campaign.ItemsShape | scraper.py:109-111 | The item loop processes the collected URLs once each, in list order. Each is followed at once by the (4, 7) pause, whatever the verdict. |
| Campaign.ProcessUrls | scraper.py:109-111 | The item loop's events are the per-URL verdicts and traces, each followed by the (4, 7) pause. |
| Campaign.KeywordBlockShape | scraper.py:73-114 | For one keyword, the first event opens the keyword's own context (named by its slug) and discovery follows at once. The last two events are that context's close and the single (8, 12) pause. The keyword's collected URLs are processed once each, in order, all strictly between discovery and the close, while that context is open, and each is followed by the (4, 7) pause. |
| Campaign.KeywordBlockLayout | scraper.py:74-113 | The positions within one keyword's events: open first, discovery next, close and long pause last, every processed video strictly between discovery and the close. |
| Campaign.ProcessKeyword | scraper.py:74-114 | One keyword's loop body produces that keyword's block of events with the properties above. |
| Campaign.RunPrefixShape | scraper.py:73-114 | Over the first n keywords, the contexts follow the schedule open 0, close 0, open 1, close 1, and so on, so no two keywords share a context. The processed URLs are the collected URLs of keyword 0, then of keyword 1, and so on, each followed by the (4, 7) pause. Every close is followed by the (8, 12) pause, and there is one such pause per keyword. |
| Campaign.RunPrefixScoped | scraper.py:73-114 | Over the first n keywords, each processed URL is paired with the context open at that moment, and these pairs are exactly keyword j's collected URLs paired with context j, for j = 0, 1, … in order. So every video lies between `OpenContext(j)` and `CloseContext(j)` of its own keyword j, and no context is open at the end. |
| Campaign.RunPrefixLast | scraper.py:73-114 | A run with at least one keyword ends on the (8, 12) pause. |
| Campaign.Run | scraper.py:73-114 | The driver loop produces exactly that trace, with the properties of `RunPrefixShape`, `RunPrefixScoped` and `RunPrefixLast` for all keywords. |

## Left out

- Browser automation (scraper.py:68-99, 113, 116): launching, navigating,
  scrolling and querying are external. They enter only as the href
  sequence and as `Navigate`/`Scroll` events. Navigation or query errors,
  which abort the run in the code, are not modelled: the browser always
  answers.
- `download_with_ytdlp` (scraper.py:30-41): a foreign library. It is replaced
  by an abstract success/error outcome per attempt. Its options (format,
  output template, merge format) are configuration.
- `random_delay` and `asyncio.sleep` (scraper.py:26-27, 56): random floats
  and wall-clock time. Each wait is a `Pause(lo, hi)` or `Cooldown(3)` event
  carrying its bounds.
- `urllib.parse.quote` (scraper.py:86-88): the `Navigate` event carries the
  keyword, not the percent-encoded search URL.
- `os.makedirs` and `os.path.join` (scraper.py:66, 77-78): filesystem I/O.
  `OpenContext` carries the slug rather than the joined path. Path rules
  are not modelled: different slugs can still give the same directory
  (`"a"` and `"a/"`), and a slug that is an absolute path replaces
  `BASE_SAVE_DIR`. So only "equal slugs, same directory" is stated.
- Console output (scraper.py:50, 52, 55, 58 and the other `print` calls):
  not modelled as events. The two prints at lines 50 and 52 are inside the
  `try` block, so an exception they raise counts as a failed attempt like a
  download error; `Retry.Outcome` is the outcome of that whole block.
- Exceptions that are not subclasses of `Exception` (`KeyboardInterrupt`,
  `SystemExit`, a cancellation during the sleep at scraper.py:56): they are
  not caught by line 54 and end the run; the model has no such outcome.
- The user agent, the viewport and the asynchronous execution model:
  configuration and scheduling.
- Slug.KeywordSlug: lowercases ASCII `A`-`Z` only, because Python's
  Unicode `str.lower` mapping (which can also change the length) is not
  modelled. The length and position properties are stated for this ASCII
  lowering.
