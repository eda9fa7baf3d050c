# Spotify playlist scraper: collector, sink and artist profiles

A model, in Dafny, of the logic inside the repository's Selenium scripts. The browser is
replaced by values:

- **Collector** (`playlist.dfy`, with `dedup.dfy` and `text.dfy`). The playlist page is a
  sequence of batches. Batch `n` holds the rows rendered after `n` PAGE_DOWN presses. Each row
  is either read completely or failed with the exception one of its `find_element` calls raised.
  That exception is `NoSuchElementException` (a missing field) or, for a row re-rendered while it
  is read, `StaleElementReferenceException`. Neither `find_element` nor `.text` raises
  `TimeoutException`, so no row failure matches the per-row handler of `tests/beginner/test_02.py`.
  The three collector loops are methods that update the record list and the seen-key set in place:
  - `tests/beginner/test_02.py`: stops after a pass that adds no key; its per-row handler names only `TimeoutException`.
  - `tests/beginnerTests/test_02.py`: also stops when the batch size repeats `lastCount`.
  - `tests/beginnerTests/test_04.py`: same stop rules, but keyed on the artists element handle.

  Each loop is proved against a specification: the list is the first-seen deduplication
  (`Deduplication.Dedup`) of every row read so far, and the set holds their keys.
- **Sink** (`sink.dfy`). This part shapes the CSV rows and JSON objects. The CSV has a fixed
  header, and the artist list is flattened with `", "`. The JSON keeps the list. Files are
  values: a CSV file is a sequence of rows, and a JSON document is a `Json` tree. Both are
  proved to read back as the records written.
- **Artist profiles** (`profiles.dfy`). The scripts build the candidate set from every song's
  `"Artists"` list and pick three distinct candidates. For each artist they run the
  info-button retry loop and read and normalise the dialog. They accumulate the five-key
  records and write the artists JSON. An artist page is an input: whether the button can be
  located after each number of presses, and what the dialog's locators return.

`base.dfy` holds `Option` and `Distinct`. `text.dfy` models Python's `split`, `strip`,
`", ".join` and `replace(".", "")` on `seq<char>`.

Two behaviours of the code shape every collector run:

- `presence_of_all_elements_located` times out on an empty batch, so a pass with no rows
  aborts the run (`Playlist.Abort.NoRows`) instead of ending it with what was collected.
- A failed row is never skipped: `tests/beginner/test_02.py` catches only `TimeoutException`,
  which no row raises, and the two later scripts catch nothing.

The info-button search is modelled on the code as written. In
`tests/beginnerTests/test_03.py` and `test_05.py`, `body` is looked up in the first window
before each artist gets a new tab. The PAGE_DOWN of a failed attempt therefore goes to an
element of another tab and raises inside the `except` clause.

## Model

| member | source | states |
|---|---|---|
| Playlist.HarvestBatch | tests/beginner/test_02.py:140-159 | If a row fails with an exception the handler does not catch, the pass raises exactly the first such failure. Otherwise the list becomes the first-seen records of all rows read so far, the set becomes their keys, and the skip count counts the caught failures. `added` is both the growth of the list and the growth of the set. It is 0 exactly when every key read was already seen. List and set keep equal sizes. |
| Playlist.StablePass | tests/beginner/test_02.py:130-174 | One pass either ends the run (described by `FinishedByStable`/`AbortedByStable`) or hands back the grown list, set and skip count for one more scroll. |
| Playlist.CollectUntilStable | tests/beginner/test_02.py:116-174 | A finished run stopped after a pass that read no new key. Every earlier pass read a new key and was followed by exactly one PAGE_DOWN, so scrolls = passes - 1. The list is the first-seen records of every row read, in order, and the set is their keys. An aborted run names the pass that raised or rendered no rows, and every earlier pass grew. |
| Playlist.PassStops | tests/beginner/test_02.py:162-169 | A pass that reads no new key ends the run without scrolling, keeping everything read so far. |
| Playlist.PassContinues | tests/beginner/test_02.py:170-174 | A pass that reads a new key leads to one more scroll, and cannot happen at the bottom of the page. |
| Playlist.StableAborts | tests/beginner/test_02.py:136-159 | The pass after n growing passes aborts the run with the cause it produces. |
| Playlist.CollectUntilRepeat | tests/beginnerTests/test_02.py:69-100 | A finished run stopped either after a pass with `newSongs == 0` (no scroll after it) or after the scroll of a pass whose row count repeated `lastCount`. Every earlier pass grew without repeating the count. The list and set are those of all rows read, and nothing is skipped. An aborted run names the failing pass. |
| Playlist.FinishedPasses | tests/beginnerTests/test_02.py:69-100 | After the final pass, every pass went through, the earlier ones grew without a repeated count, and list and set cover everything read. |
| Playlist.RepeatStopsNoNew | tests/beginnerTests/test_02.py:89-90 | `newSongs == 0` ends the run before any scroll. |
| Playlist.RepeatStopsOnSize | tests/beginnerTests/test_02.py:92-101 | A growing pass whose row count equals `lastCount` ends the run after its scroll. |
| Playlist.RepeatAborts | tests/beginnerTests/test_02.py:70-80 | A pass with no rows or a failing row aborts the run; earlier passes all grew. |
| Playlist.NothingSkipped | tests/beginnerTests/test_02.py:73-87 | Without a per-row handler, no row is ever counted as skipped. |
| Playlist.RecordsDistinct | tests/beginner/test_02.py:150-155 | The stored list and the seen set have the same size, and no two stored records share a key. |
| Playlist.RunGrows | tests/beginner/test_02.py:116-155 | The list after n passes is a prefix of the list after any later pass, and the set a subset: nothing is removed or reordered. |
| Playlist.CaughtRowInvisible | tests/beginner/test_02.py:157-159 | A row whose exception the handler catches changes neither the rows read nor whether the pass raises. It only adds one to the skip count. |
| Playlist.UncaughtRowRaises | tests/beginner/test_02.py:140-159 | A row whose exception is not caught makes the pass raise: that exception, unless an earlier row raised first. |
| Playlist.TimeoutOnlyRaises | tests/beginner/test_02.py:157-159 | With `except TimeoutException`, a pass raises exactly when some row failed with `NoSuchElementException`. |
| Playlist.FirstUncaughtNotCaught | tests/beginner/test_02.py:157-159 | The exception a pass raises is never one its handler catches. |
| Playlist.AnyFailureNeverRaises | tests/beginner/test_02.py:141-159 | With a handler that catches every row failure, no pass raises. |
| Playlist.TrackOf | tests/beginner/test_02.py:142-153 | The track built from a row has a well-formed artist list: non-empty, every name comma-free and whitespace-stripped. |
| Playlist.TrackRowOf | tests/beginnerTests/test_04.py:75-84 | The stored tuple keeps the artists text stripped, and the text key of a row is the key of the tuple it stores. |
| Playlist.HandleKeyIdentity | tests/beginnerTests/test_04.py:84 | Of two rows read in turn, the second is dropped as already seen exactly when it has the first's song name and artists element, whatever their texts. Keyed on the text, it is dropped exactly when the names and the stripped texts agree. |
| Playlist.CollectPlaylistAsWritten | tests/beginner/test_02.py:116-180 | The run of `CollectUntilStable` with the `except TimeoutException` handler: the same stop rule, scroll count, list and key set. A finished run holds the first-seen tracks, keyed on `(songName, tuple(allArtist))`, with no repeated key. An abort is either an empty batch or a row whose `find_element` raised `NoSuchElementException`. |
| Playlist.CollectPlaylist | tests/beginner/test_02.py:116-180 | The same run with every row failure skipped: stop rule, scroll count, list, key set and skip count as `CollectUntilStable` states them, and a run aborts only on an empty batch. |
| Playlist.CollectPlaylistCounted | tests/beginnerTests/test_02.py:62-100 | The run of `CollectUntilRepeat` on tracks: which stop rule fired, the scroll count, the first-seen tracks with no repeated key, and their key set. An abort is the cause the failing pass produces, after growing passes. |
| Playlist.CollectPlaylistByHandle | tests/beginnerTests/test_04.py:64-102 | The run of `CollectUntilRepeat` keyed on `(songName, artists element)`, storing the stripped artists text: stop rules, scroll count, the first-seen rows and their key set. List size = set size. |
| Playlist.CollectPlaylistByText | tests/beginnerTests/test_04.py:64-102 | The same run keyed on the stored `(songName, artists text)`: stop rules, scroll count and key set as `CollectUntilRepeat` states them, and no two stored tuples share that key. |
| Playlist.HandleKeyKeepsDuplicates | tests/beginnerTests/test_04.py:78-89 | Two renderings of the same song by different elements are both stored, with equal song and artists text. |
| Playlist.TextKeyMergesDuplicates | tests/beginnerTests/test_04.py:79-89 | Keyed on the text, the same two renderings are stored once. |
| Deduplication.DedupKeys | tests/beginner/test_02.py:150-155 | The kept records carry exactly the keys read, one record per key, with no key twice. |
| Deduplication.DedupFirstSeen | tests/beginner/test_02.py:153-155 | Every kept record is the first row read with its key. |
| Deduplication.DedupOrder | tests/beginner/test_02.py:140-155 | Kept records appear in the order their keys were first read: earlier passes before later ones, earlier rows before later rows. |
| Deduplication.DedupPrefix | tests/beginner/test_02.py:153-155 | Reading more rows only appends to the kept list. |
| Deduplication.DedupMonotone | tests/beginner/test_02.py:116-155 | A longer read sequence keeps a longer list and a larger key set. |
| Deduplication.DedupAbsorbs | tests/beginner/test_02.py:163-169 | Rows whose keys were all seen change neither the list nor the set. |
| Deduplication.DedupIdempotent | tests/beginner/test_02.py:153-155 | Deduplicating the kept list again changes nothing. |
| Deduplication.KeysOfMember | tests/beginner/test_02.py:155 | A key is in the seen set exactly when some row read has it. |
| Deduplication.DedupSnoc | tests/beginner/test_02.py:153-155 | One more row adds its key to the set and is appended exactly when its key is new. |
| Text.SplitArtistsWellFormed | tests/beginner/test_02.py:145 | Every artist from `[a.strip() for a in text.split(',')]` has no comma and no surrounding whitespace. |
| Text.SplitPartsFree | tests/beginner/test_02.py:145 | No part of `split(',')` contains the separator. |
| Text.JoinSplit | tests/beginner/test_02.py:145 | Joining the parts of `split(sep)` with `sep` gives back the text. |
| Text.SplitJoin | tests/beginner/test_02.py:145 | Splitting a join of separator-free parts gives back the parts. |
| Text.SplitAt | tests/beginner/test_02.py:145 | Splitting at a separator splits each side independently. |
| Text.SplitArtistsAt | tests/beginner/test_02.py:145 | The artist list of `a + "," + b` is that of `a` followed by that of `b`. |
| Text.SplitArtistsLeadingSpace | tests/beginner/test_02.py:145 | Leading whitespace does not change the artist list. |
| Text.SingleArtist | tests/beginner/test_02.py:145 | A stripped, comma-free name is its own one-element artist list. |
| Text.SplitJoinArtists | tests/beginner/test_02.py:195 | Re-splitting a `", ".join` CSV cell of a well-formed artist list gives the list back. |
| Text.FlattenedArtistsReparse | tests/beginner/test_02.py:145-195 | Any artist list the collector builds survives its CSV flattening. |
| Text.StripShape | tests/beginner/test_02.py:145 | `s.strip()` is the middle of `s` between two runs of stripped characters. |
| Text.StripUnwraps | tests/beginner/test_02.py:145 | Stripping runs of strippable characters off a stripped text gives that text. |
| Text.StripIdempotent | tests/beginner/test_02.py:145 | Stripping twice is stripping once. |
| Text.StripKeepsOut | tests/beginner/test_02.py:145 | Stripping adds no character. |
| Text.RemoveCharKeepsOthers | projects/beginner/test_03.py:197-198 | `replace(".", "")` leaves no '.' and keeps every other character as often as before. |
| Text.RemoveCharAppend | projects/beginner/test_03.py:197-198 | `replace(".", "")` works piecewise on a concatenation, so order is kept. |
| Sink.CsvTable | tests/beginner/test_02.py:190-197 | The CSV is the fixed header followed by one row per stored track, in order, each with the artists flattened by `", "` (same code at tests/beginnerTests/test_02.py:111-118). |
| Sink.CsvKeepsCollected | tests/beginner/test_02.py:190-197 | Reading back the CSV of any collected track list gives exactly that list, in order. |
| Sink.TrackCellsRoundTrip | tests/beginner/test_02.py:194-196 | A track with a well-formed artist list reads back from its six cells. |
| Sink.TrackJson | tests/beginner/test_02.py:203-210 | Every track object has exactly the six header keys, in header order. |
| Sink.CsvFileRoundTrip | tests/beginner/test_02.py:190-197 | Header check plus row decoding gives back every record written. |
| Sink.TrackJsonRoundTrip | tests/beginner/test_02.py:203-211 | Each track object has exactly the six keys in header order, and reads back as the track with its artist list intact (same code at tests/beginnerTests/test_02.py:124-132). |
| Sink.TrackFields | tests/beginner/test_02.py:203-210 | Each key of a track object finds that track's own field, `Artists` as the list. |
| Sink.JsonKeepsTracks | tests/beginner/test_02.py:202-211 | The JSON document loads back as exactly the stored tracks, in order. |
| Sink.JsonFileRoundTrip | tests/beginner/test_02.py:202-211 | One object per record, in order, reads back as the records. |
| Sink.RowTable | tests/beginnerTests/test_04.py:109-112 | The CSV table is the header followed by one line per stored tuple. |
| Sink.RowJson | tests/beginnerTests/test_04.py:117 | Every stored tuple becomes an object with exactly the six header keys, in header order. |
| Sink.RowTableKeepsRows | tests/beginnerTests/test_04.py:109-112 | The CSV is the header followed by the stored tuples, written unchanged and in order, and reads back as them. |
| Sink.RowJsonRoundTrip | tests/beginnerTests/test_04.py:117 | Each stored tuple becomes an object with the six keys, `Artists` as the stripped text, and reads back as the tuple. |
| Sink.JsonKeepsRows | tests/beginnerTests/test_04.py:116-117 | The JSON loads back as exactly the stored tuples, in order. |
| Profiles.CandidateArtists | projects/beginner/test_03.py:75-77 | The `artists.update` loop ends holding exactly the union of all songs' artist lists. |
| Profiles.ArtistsOfMember | projects/beginner/test_03.py:75-77 | A name is a candidate exactly when some song lists it. |
| Profiles.PlaylistFileArtists | tests/beginnerTests/test_03.py:27-33 | Reading `song["Artists"]` from the playlist JSON the collector writes gives each track's artist list, in order. |
| Profiles.Sample | projects/beginner/test_03.py:79 | With at least 3 candidates, it gives 3 distinct candidates. With fewer, it gives the error `random.sample` raises. |
| Profiles.RunProfiles | projects/beginner/test_03.py:70-215 | A whole run of projects/beginner/test_03.py or tests/beginnerTests/test_03.py. It fails exactly when there are fewer than 3 candidates. Otherwise it processes 3 distinct candidates in order, and its records and JSON file are those of `Process`/`SavedFile`. |
| Profiles.AttemptsFrom | tests/beginnerTests/test_03.py:59-65 | A retry loop stops at the first attempt that locates the button, after one PAGE_DOWN per failed attempt. It gives up only when no attempt succeeds, and never raises when the press works. |
| Profiles.BoundedSearchSpec | projects/beginner/test_03.py:131-150 | The retry loop the scripts intend, with a working PAGE_DOWN: on success, the button shows at that attempt and at no earlier one. Giving up means `limit` presses and no attempt succeeded. It never raises. |
| Profiles.StaleBodySearch | tests/beginnerTests/test_03.py:41-65 | With a PAGE_DOWN that raises, the loop never scrolls. It finds the button only at the first attempt, raises exactly when that attempt fails, and gives up only when it makes no attempt. |
| Profiles.SearchInfoButton | tests/beginnerTests/test_03.py:41-65 | The `for _ in range(50)` loop (same code at tests/beginnerTests/test_05.py:41-63) ends as `Attempts`. As written, `body` belongs to the first window and the press raises; with `body` looked up in the searched tab the loop is `BoundedSearch`. |
| Profiles.SearchInfoButtonAsWritten | projects/beginner/test_03.py:132-150 | The written 20-try `while` loop, with `wait.until` returning the element or raising. `tries_count` stays 0, so the `tries_count == 20` skip is unreachable, and the outcome is that of a search whose press raises: the button at once, or an exception. |
| Profiles.BeginnerNeverSkips | projects/beginner/test_03.py:135-150 | As written, no artist is ever skipped by the `tries_count == 20` branch. |
| Profiles.ScrollNeededAborts | projects/beginner/test_03.py:135-146 | A button that shows only after one PAGE_DOWN ends the written run, while the intended loop finds it after one press. |
| Profiles.BeginnerSkipsHiddenButton | projects/beginner/test_03.py:133-150 | With the intended loop, an artist whose button never shows in 20 attempts is skipped with no record. |
| Profiles.StaleBodyAbortsTest | tests/beginnerTests/test_03.py:41-65 | As written, an artist whose button is not located at the first attempt ends the run: the PAGE_DOWN on the first window's `body` raises inside the `except`. Pressing on the searched tab finds a button that shows after one press. |
| Profiles.TestSkipsHiddenButton | tests/beginnerTests/test_03.py:59-68 | With the press on the searched tab, an artist whose button never shows in 50 attempts is skipped with no record. |
| Profiles.Ranking | projects/beginner/test_03.py:170-177 | The ranking is "N/A" when nothing matched, and otherwise never begins or ends with '#'. |
| Profiles.RankingOf | tests/beginnerTests/test_03.py:93-103 | A first match made of '#' runs around a text `x` with no '#' at its ends ranks exactly as `x`. |
| Profiles.Count | projects/beginner/test_03.py:197-198 | A count contains no '.', is no longer than the text read, and a text without '.' is kept as it is. |
| Profiles.CountNormalised | projects/beginner/test_03.py:197-198 | Followers and monthly listeners contain no '.'. Every other character is kept as often as before, and piecewise in order. |
| Profiles.BeginnerDialog | projects/beginner/test_03.py:160-202 | A record is made exactly when the dialog opened with at least two counts and at least one city, so fewer than 5 cities only warn. It is named after the searched artist and its cities are those read. |
| Profiles.TestDialog | tests/beginnerTests/test_03.py:69-142 | A record is made exactly when the dialog opened and showed two counts. It is named after the searched artist. |
| Profiles.StoredProfile | projects/beginner/test_03.py:160-202 | A stored record carries the searched name as Artist, the normalised ranking and both counts read from that artist's dialog, and its cities. In projects/beginner/test_03.py these are the cities found, at least one, possibly fewer than 5. In tests/beginnerTests/test_03.py they are the cities found, or none when reading them raised. |
| Profiles.TestDialogFailureSkips | tests/beginnerTests/test_03.py:69-142 | In tests/beginnerTests/test_03.py a failing dialog stage adds no record and does not end the run. |
| Profiles.ProcessArtists | projects/beginner/test_03.py:103-215 | The artist loop ends with the records and abort flag of `Process`. The JSON file holds all records so far in projects/beginner/test_03.py, which rewrites it after each one. In tests/beginnerTests/test_03.py (lines 148-150) it holds all records once the loop completes, and nothing if the run was aborted. |
| Profiles.ProcessStaysAborted | projects/beginner/test_03.py:144-146 | Once an exception ends the run, later artists change nothing. |
| Profiles.ProcessPrefix | projects/beginner/test_03.py:202-213 | The records after the first k artists are a prefix of the final records, so each rewritten file holds the first records in chosen order. |
| Profiles.ProcessInChosenOrder | tests/beginnerTests/test_03.py:46-137 | The records' artist names are a subsequence of the chosen artists: one record at most per artist, in chosen order. |
| Profiles.TestNeverAborts | tests/beginnerTests/test_03.py:41-150 | With the press on the searched tab and an artist whose button never shows skipped, a run of tests/beginnerTests/test_03.py always reaches the final JSON dump. |
| Profiles.ProfileJsonRoundTrip | projects/beginner/test_03.py:194-200 | Each record is an object with exactly the keys Artist, Ranking, Followers, MonthlyListeners and TopCities, and reads back as itself. |
| Profiles.JsonKeepsProfiles | tests/beginnerTests/test_03.py:148-150 | The artists file loads back as exactly the records dumped, in order. |
| Profiles.ReportArtists | tests/beginnerTests/test_05.py:44-79 | The artist loop of tests/beginnerTests/test_05.py prints exactly the reports of `Reports` and stores nothing; `ReportsAsWrittenStopAtScroll` and `CorrectedReportsPerShownButton` state which those are. |
| Profiles.Reports | tests/beginnerTests/test_05.py:44-79 | At most one report per chosen artist. |
| Profiles.RunReports | tests/beginnerTests/test_05.py:31-79 | The whole script fails exactly when there are fewer than 3 candidates. Otherwise it reports on 3 distinct candidates. |
| Profiles.DialogNeverRead | tests/beginnerTests/test_05.py:67-79 | As written (`DialogReportAsWritten`), every dialog stage ends in "Dialog not found", whatever the page offers. |
| Profiles.SingleElementNotSubscriptable | tests/beginnerTests/test_05.py:71-72 | Indexing what `find_element` returns always raises: `TypeError` when an element was found. |
| Profiles.ReportsNeverRead | tests/beginnerTests/test_05.py:65-79 | As written, no report of a run carries a value read from a dialog. |
| Profiles.CorrectedReportsNeverAbort | tests/beginnerTests/test_05.py:44-79 | With the press on the searched tab and a search that gives up quietly, test_05 reaches every chosen artist. |
| Profiles.ReportsAsWrittenStopAtScroll | tests/beginnerTests/test_05.py:41-65 | As written, the run ends exactly when some chosen artist's button is not located at the first attempt. It reports on every artist before the first such one and on no other. |
| Profiles.Showing | tests/beginnerTests/test_05.py:57-65 | An artist is in the list exactly when it was chosen and its button shows at one of the 50 attempts. |
| Profiles.CorrectedReportsPerShownButton | tests/beginnerTests/test_05.py:57-79 | The corrected run prints one report per chosen artist whose button shows within 50 attempts, in chosen order, each the corrected dialog stage of that artist's page. |
| Profiles.DialogReadWhenComplete | tests/beginnerTests/test_05.py:67-79 | With the counts looked up by `find_elements` (`DialogReport`), a dialog is read exactly when it shows a ranking, two counts and a city. It prints the first ranking with '#' stripped and the first two counts with '.' stripped from their ends. The written stage reads none of these. |

## Left out

- Selenium itself is not modelled: locators, XPath semantics, waits and their timeouts, clicks, tabs, `time.sleep`, screenshots and the `finally` cleanup. What a locator returns is an input.
- Login and cookie handling (tests/beginner/test_01.py, tests/beginnerTests/test_01.py) is not part of this model. Neither are the helpers of projects/intermediate/src/utils (login, cookie saving and loading, logout, wait wrappers around element lookups, driver creation): they drive the browser session and lie outside the scraping core.
- File writes are values: CSV quoting and the JSON text encoding (`indent`, `ensure_ascii`) are not modelled.
- Reading the playlist file is not modelled (`json.load`, FileNotFoundError). The scripts take the songs' artist lists as input. `Profiles.PlaylistFileArtists` ties them to the file the collector writes.
- A playlist file whose `"Artists"` is a string (the shape tests/beginnerTests/test_04.py writes) is not modelled. There `set.update` would add single characters; the model takes lists.
- The search bar, "Artistas" tab and top-artist waits before the info-button loop are assumed to succeed. A timeout there ends the run in every script.
- The `data_container.text` wait is folded into the dialog input: in projects/beginner/test_03.py its timeout counts as a missing dialog. In tests/beginnerTests/test_03.py a failure there is swallowed and has no effect on the values read.
- In projects/beginner/test_03.py the dialog handler names `TimeoutError`, which Selenium's `TimeoutException` does not match. Both paths re-raise, so the run ends either way, and the model does not tell them apart.
- In tests/beginnerTests/test_05.py the dialog and data-container lookups (`find_element`, the container by an XPath counting nine children) are folded into the dialog input: None when either is missing.
- The `Process` fold and the `DialogReportAsWritten`/`DialogReport` stages carry no contract of their own; `Profiles.ProcessArtists`, `Profiles.ProcessInChosenOrder`, `Profiles.DialogNeverRead` and `Profiles.DialogReadWhenComplete` state what they compute.
- tests/beginnerTests/test_05.py reads cities with a different locator. The model takes it to find an element exactly when the city list is non-empty. What test_05 prints is modelled as values, not text.
- Profiles.Sample: the choice is nondeterministic; the uniform distribution of `random.sample` is not modelled.
- Playlist.View: past the last supplied batch the page is at its bottom and shows the last batch again. That assumption bounds every run.
- Selenium element handles are opaque numbers; two rows share a handle only if the input says so.

## Findings

| source | as written | input that shows it | evidently intended | confidence | as-written member | corrected member |
|---|---|---|---|---|---|---|
| tests/beginner/test_02.py:157 | Only `TimeoutException` is caught per row, and no row raises it: `find_element` raises `NoSuchElementException` for a missing sub-element (or `StaleElementReferenceException` for a re-rendered row). Such a row ends the whole scrape, so the handler never fires. | A batch with a row whose album element is absent (`Failed(NoSuchElement)`) | The row is skipped with a warning, as the handler's message says | not executed; high | Playlist.CollectPlaylistAsWritten | Playlist.CollectPlaylist |
| tests/beginnerTests/test_04.py:84 | The key `(songName, artists)` uses the element handle. The same song rendered again by a new element after a scroll is stored twice. | Two rows with equal song name and artists text but different artists elements | Key on the artists text, as the other collectors do | not executed; high | Playlist.HandleKeyKeepsDuplicates | Playlist.CollectPlaylistByText |
| projects/beginner/test_03.py:136-150 | `wait.until` never returns a falsy value: it returns the element or raises `TimeoutException`, which is re-raised. The loop never scrolls, the 20-try skip is unreachable, and a button below the fold ends the run. | An artist page whose button shows only after one PAGE_DOWN (`shown == [false, true]`) | Look the button up without raising, press PAGE_DOWN on the current tab's `body` (the one found at line 97 belongs to the first window), retry up to 20 times, then skip the artist | not executed; high | Profiles.ScrollNeededAborts | Profiles.BeginnerSkipsHiddenButton |
| tests/beginnerTests/test_03.py:59-65 | `body` is looked up at line 41, before `switch_to.new_window("tab")` at line 48. A failed attempt presses PAGE_DOWN on that element of another tab, which raises inside the `except` clause and ends the run before the JSON dump. The same code is at tests/beginnerTests/test_05.py:41-63. Were the press fixed, 50 failed attempts would still leave `artist_info_button` unbound or stale. | An artist page whose button shows only after one PAGE_DOWN (`shown == [false, true]`) | Press PAGE_DOWN on the current tab's `body`, and skip an artist whose button never shows | not executed; medium | Profiles.StaleBodyAbortsTest | Profiles.TestNeverAborts |
| tests/beginnerTests/test_05.py:71-72 | `find_element(...)[0]` indexes a single WebElement, which raises TypeError. Every dialog stage ends in "Dialog not found". | Any artist whose dialog shows a ranking, two counts and a city | Index the list `find_elements` returns | not executed; high | Profiles.ReportsNeverRead | Profiles.DialogReadWhenComplete |
