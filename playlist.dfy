/**
 * The scroll-and-deduplicate track collectors of the playlist scripts.
 *
 * The browser is replaced by a finite sequence of batches: batch k holds what the
 * track-row locator returns after k PAGE_DOWN presses, one read outcome per row, in
 * document order. Past the last batch the page is at its bottom and the view no
 * longer changes.
 */
module Playlist {
  import opened Base
  import opened Text
  import opened Deduplication

  // ---------------------------------------------------------------------------
  // What the page offers

  /**
   * The texts one rendered track row yields, one per located sub-element, and the
   * identity of the row's artists element (a Selenium element handle, opaque here).
   */
  datatype RawRow = RawRow(
    position: string,
    songName: string,
    artistsElement: nat,
    artistsText: string,
    reproductions: string,
    album: string,
    duration: string)

  /**
   * The exception a row's reading raised. `find_element` raises NoSuchElementException when a
   * field is missing (and a row re-rendered while being read raises
   * StaleElementReferenceException, which is handled alike); neither `find_element` nor `.text`
   * raises TimeoutException, so `TimedOut` is the case the handler of tests/beginner/test_02.py
   * names but no row produces.
   */
  datatype Failure = TimedOut | NoSuchElement

  /** Reading one row: every sub-element found, or the exception that stopped it. */
  datatype RowOutcome = Read(row: RawRow) | Failed(failure: Failure)

  type Batch = seq<RowOutcome>

  /** The rows rendered after `scrolls` PAGE_DOWN presses. */
  function View(batches: seq<Batch>, scrolls: nat): Batch
  {
    if batches == [] then []
    else if scrolls < |batches| then batches[scrolls]
    else batches[|batches| - 1]
  }

  // ---------------------------------------------------------------------------
  // Records and identity keys

  /** A stored track: `(listPosition, songName, allArtist, reproductions, album, duration)`. */
  datatype Track = Track(
    ranking: string,
    song: string,
    artists: seq<string>,
    reproductions: string,
    album: string,
    duration: string)

  /** `(songName, tuple(allArtist))`. */
  type TrackKey = (string, seq<string>)

  /** The track a row yields; its artist list is the comma-free, stripped split of the text. */
  function TrackOf(raw: RawRow): (t: Track)
    ensures WellFormedArtists(t.artists)
  {
    SplitArtistsWellFormed(raw.artistsText);
    Track(raw.position, raw.songName, SplitArtists(raw.artistsText),
          raw.reproductions, raw.album, raw.duration)
  }

  function TrackKeyOf(t: Track): TrackKey
  {
    (t.song, t.artists)
  }

  function RowKey(raw: RawRow): TrackKey
  {
    TrackKeyOf(TrackOf(raw))
  }

  /** The tuple stored by the handle-keyed variant: the artists text kept whole, stripped. */
  datatype TrackRow = TrackRow(
    ranking: string,
    song: string,
    artists: string,
    reproductions: string,
    album: string,
    duration: string)

  /** The tuple a row yields: the artists text stripped, so the text key is the stored tuple's key. */
  function TrackRowOf(raw: RawRow): (t: TrackRow)
    ensures Stripped(t.artists, IsSpace)
    ensures TrackRowKeyOf(t) == TextKey(raw)
  {
    TrackRow(raw.position, raw.songName, Trim(raw.artistsText),
             raw.reproductions, raw.album, raw.duration)
  }

  /** `(songName, artists)` where `artists` is the element handle, not its text. */
  function HandleKey(raw: RawRow): (string, nat)
  {
    (raw.songName, raw.artistsElement)
  }

  /** The key the other variants use, on the stored text: `(songName, artists text)`. */
  function TextKey(raw: RawRow): (string, string)
  {
    (raw.songName, Trim(raw.artistsText))
  }

  function TrackRowKeyOf(t: TrackRow): (string, string)
  {
    (t.song, t.artists)
  }

  /** The records built from `rows`, in order. */
  function Records<R>(rec: RawRow -> R, rows: seq<RawRow>): (out: seq<R>)
    ensures |out| == |rows|
  {
    if rows == [] then [] else Records(rec, rows[..|rows| - 1]) + [rec(rows[|rows| - 1])]
  }

  lemma {:induction false} RecordsAt<R>(rec: RawRow -> R, rows: seq<RawRow>, i: nat)
    requires i < |rows|
    ensures Records(rec, rows)[i] == rec(rows[i])
    decreases |rows|
  {
    if i < |rows| - 1 {
      RecordsAt(rec, rows[..|rows| - 1], i);
    }
  }

  lemma {:induction false} RecordsPrefix<R>(rec: RawRow -> R, a: seq<RawRow>, b: seq<RawRow>)
    requires a <= b
    ensures Records(rec, a) <= Records(rec, b)
  {
    forall i | 0 <= i < |a| ensures Records(rec, a)[i] == Records(rec, b)[i] {
      RecordsAt(rec, a, i);
      RecordsAt(rec, b, i);
    }
  }

  // ---------------------------------------------------------------------------
  // One pass over a batch

  /** The rows of `batch` that were read completely, in order. */
  function Reads(batch: Batch): seq<RawRow>
  {
    if batch == [] then []
    else
      var last := batch[|batch| - 1];
      Reads(batch[..|batch| - 1]) + (if last.Read? then [last.row] else [])
  }

  /** The first failure in `batch` that the row handler `caught` does not catch. */
  function FirstUncaught(batch: Batch, caught: Failure -> bool): Option<Failure>
  {
    if batch == [] then None
    else
      var last := batch[|batch| - 1];
      match FirstUncaught(batch[..|batch| - 1], caught)
      case Some(f) => Some(f)
      case None => if last.Failed? && !caught(last.failure) then Some(last.failure) else None
  }

  /** How many rows the handler skipped with a warning. */
  function SkippedRows(batch: Batch, caught: Failure -> bool): nat
  {
    if batch == [] then 0
    else
      var last := batch[|batch| - 1];
      SkippedRows(batch[..|batch| - 1], caught) + (if last.Failed? && caught(last.failure) then 1 else 0)
  }

  lemma {:induction false} FirstUncaughtExtends(batch: Batch, caught: Failure -> bool, i: nat)
    requires i <= |batch| && FirstUncaught(batch[..i], caught).Some?
    ensures FirstUncaught(batch, caught) == FirstUncaught(batch[..i], caught)
    decreases |batch| - i
  {
    if i < |batch| {
      assert batch[..i + 1][..i] == batch[..i];
      FirstUncaughtExtends(batch, caught, i + 1);
    } else {
      assert batch[..i] == batch;
    }
  }

  /** Rows 0 .. i-1 of `batch` were handled: `done` were read, `skipped` were skipped, none raised. */
  ghost predicate HandledPrefix(batch: Batch, caught: Failure -> bool, i: nat, done: seq<RawRow>, skipped: nat)
  {
    && i <= |batch|
    && done == Reads(batch[..i])
    && FirstUncaught(batch[..i], caught) == None
    && skipped == SkippedRows(batch[..i], caught)
  }

  /** Row i was read completely: it joins the reads. */
  lemma HandleRow(batch: Batch, caught: Failure -> bool, i: nat, done: seq<RawRow>, skipped: nat)
    requires HandledPrefix(batch, caught, i, done, skipped) && i < |batch| && batch[i].Read?
    ensures HandledPrefix(batch, caught, i + 1, done + [batch[i].row], skipped)
  {
    assert batch[..i + 1][..i] == batch[..i];
  }

  /** Row i failed with an exception the handler catches: it is skipped. */
  lemma SkipRow(batch: Batch, caught: Failure -> bool, i: nat, done: seq<RawRow>, skipped: nat)
    requires HandledPrefix(batch, caught, i, done, skipped) && i < |batch|
    requires batch[i].Failed? && caught(batch[i].failure)
    ensures HandledPrefix(batch, caught, i + 1, done, skipped + 1)
  {
    assert batch[..i + 1][..i] == batch[..i];
  }

  /** Row i failed with an exception the handler does not catch: the pass raises it. */
  lemma RaiseRow(batch: Batch, caught: Failure -> bool, i: nat, done: seq<RawRow>, skipped: nat)
    requires HandledPrefix(batch, caught, i, done, skipped) && i < |batch|
    requires batch[i].Failed? && !caught(batch[i].failure)
    ensures FirstUncaught(batch, caught) == Some(batch[i].failure)
  {
    assert batch[..i + 1][..i] == batch[..i];
    FirstUncaughtExtends(batch, caught, i + 1);
  }

  lemma RecordsSnoc<R>(rec: RawRow -> R, rows: seq<RawRow>, x: RawRow)
    ensures Records(rec, rows + [x]) == Records(rec, rows) + [rec(x)]
  {
    assert (rows + [x])[..|rows|] == rows;
  }

  /**
   * The list and the set after keying the rows `done` read in this pass, on top of the rows
   * `before` read in earlier passes (whose list and set were `data` and `seen`).
   */
  ghost predicate Keyed<R, K>(rec: RawRow -> R, key: RawRow -> K, before: seq<RawRow>, data: seq<R>, seen: set<K>,
                                  done: seq<RawRow>, data': seq<R>, seen': set<K>, added: nat)
  {
    && data' == Records(rec, Dedup(key, before + done))
    && seen' == KeysOf(key, before + done)
    && seen' == seen + KeysOf(key, done)
    && added == |data'| - |data|
    && (added == 0 <==> seen' == seen)
  }

  /** Keying one more row after `before` and `done`: the key joins the set, the row is kept when new. */
  lemma KeyStep<R, K>(rec: RawRow -> R, key: RawRow -> K, before: seq<RawRow>, done: seq<RawRow>, row: RawRow)
    ensures KeysOf(key, before + (done + [row])) == KeysOf(key, before + done) + {key(row)}
    ensures KeysOf(key, done + [row]) == KeysOf(key, done) + {key(row)}
    ensures Records(rec, Dedup(key, before + (done + [row]))) ==
              if key(row) in KeysOf(key, before + done) then Records(rec, Dedup(key, before + done))
              else Records(rec, Dedup(key, before + done)) + [rec(row)]
  {
    assert before + (done + [row]) == (before + done) + [row];
    DedupSnoc(key, before + done, row);
    DedupSnoc(key, done, row);
    RecordsSnoc(rec, Dedup(key, before + done), row);
  }

  /** A row whose key was seen changes neither the list nor the set. */
  lemma KeySeenRow<R, K>(rec: RawRow -> R, key: RawRow -> K, before: seq<RawRow>, data: seq<R>, seen: set<K>,
                         done: seq<RawRow>, data': seq<R>, seen': set<K>, added: nat, row: RawRow)
    requires Keyed(rec, key, before, data, seen, done, data', seen', added) && key(row) in seen'
    ensures Keyed(rec, key, before, data, seen, done + [row], data', seen', added)
  {
    KeyStep(rec, key, before, done, row);
  }

  /** A row with a new key appends its record, joins the set and counts as added. */
  lemma KeyNewRow<R, K>(rec: RawRow -> R, key: RawRow -> K, before: seq<RawRow>, data: seq<R>, seen: set<K>,
                        done: seq<RawRow>, data': seq<R>, seen': set<K>, added: nat, row: RawRow)
    requires Keyed(rec, key, before, data, seen, done, data', seen', added) && key(row) !in seen'
    ensures Keyed(rec, key, before, data, seen, done + [row], data' + [rec(row)], seen' + {key(row)}, added + 1)
  {
    KeyStep(rec, key, before, done, row);
  }

  /**
   * The `for song in songs` loop: each completely read row is keyed; a new key appends
   * the record and adds the key to the seen set. A failure the handler catches skips
   * the row; any other failure propagates and ends the pass (and the run).
   */
  method HarvestBatch<R, K(==)>(batch: Batch, rec: RawRow -> R, key: RawRow -> K, caught: Failure -> bool,
                                data: seq<R>, seen: set<K>, ghost before: seq<RawRow>)
    returns (raised: Option<Failure>, data': seq<R>, seen': set<K>, added: nat, skipped: nat)
    requires data == Records(rec, Dedup(key, before)) && seen == KeysOf(key, before)
    ensures raised == FirstUncaught(batch, caught)
    ensures raised == None ==>
              && Absorbed(rec, key, caught, before, batch, data', seen', skipped)
              && added == |data'| - |data|
              && (added == 0 <==> KeysOf(key, Reads(batch)) <= seen)
              && added == |seen'| - |seen|
              && |data'| == |seen'|
  {
    raised, data', seen', added, skipped := None, data, seen, 0, 0;
    var i := 0;
    ghost var done: seq<RawRow> := [];
    assert batch[..0] == [] && before + done == before;
    while i < |batch|
      invariant HandledPrefix(batch, caught, i, done, skipped)
      invariant Keyed(rec, key, before, data, seen, done, data', seen', added)
    {
      var outcome := batch[i];
      if outcome.Failed? {
        if !caught(outcome.failure) {
          RaiseRow(batch, caught, i, done, skipped);
          return Some(outcome.failure), data', seen', added, skipped;
        }
        SkipRow(batch, caught, i, done, skipped);
        skipped := skipped + 1;
      } else {
        var row := outcome.row;
        HandleRow(batch, caught, i, done, skipped);
        if key(row) !in seen' {
          KeyNewRow(rec, key, before, data, seen, done, data', seen', added, row);
          data' := data' + [rec(row)];
          seen' := seen' + {key(row)};
          added := added + 1;
        } else {
          KeySeenRow(rec, key, before, data, seen, done, data', seen', added, row);
        }
        done := done + [row];
      }
      i := i + 1;
    }
    assert batch[..i] == batch;
    KeysOfAppend(key, before, done);
    DedupKeys(key, before);
    DedupKeys(key, before + done);
  }

  // ---------------------------------------------------------------------------
  // Passes of a run

  /** The completely read rows of passes 0 .. n-1, in the order they were read. */
  function Collected(batches: seq<Batch>, n: nat): seq<RawRow>
  {
    if n == 0 then [] else Collected(batches, n - 1) + Reads(View(batches, n - 1))
  }

  /** Rows skipped with a warning in passes 0 .. n-1. */
  function SkippedIn(batches: seq<Batch>, n: nat, caught: Failure -> bool): nat
  {
    if n == 0 then 0 else SkippedIn(batches, n - 1, caught) + SkippedRows(View(batches, n - 1), caught)
  }

  /** Pass j rendered rows and none of them raised past the handler. */
  predicate PassOk(batches: seq<Batch>, j: nat, caught: Failure -> bool)
  {
    View(batches, j) != [] && FirstUncaught(View(batches, j), caught) == None
  }

  /** Pass j read a key that no earlier pass had read. */
  predicate Grew<K(==)>(batches: seq<Batch>, key: RawRow -> K, j: nat)
  {
    !(KeysOf(key, Reads(View(batches, j))) <= KeysOf(key, Collected(batches, j)))
  }

  /** Pass j rendered as many rows as the pass before it (`len(songs) == lastCount`). */
  predicate SizeRepeats(batches: seq<Batch>, j: nat)
  {
    j > 0 && |View(batches, j)| == |View(batches, j - 1)|
  }

  /** Why a run aborted: the row locator found nothing before its wait timed out, or a row raised. */
  datatype Abort = NoRows | RowRaised(failure: Failure)

  /** Why a finished run stopped. */
  datatype Stop = NoNewSongs | BatchSizeRepeated

  /** The outcome of a collector run. */
  datatype Run<R, K> =
    | Finished(data: seq<R>, seen: set<K>, passes: nat, scrolls: nat, skipped: nat, stop: Stop)
    | Aborted(pass: nat, cause: Abort)

  /** The abort a pass causes, if any. */
  function PassAbort(batch: Batch, caught: Failure -> bool): Option<Abort>
  {
    if batch == [] then Some(NoRows)
    else match FirstUncaught(batch, caught)
      case Some(f) => Some(RowRaised(f))
      case None => None
  }

  // ---------------------------------------------------------------------------
  // tests/beginner/test_02.py: stop after a pass that adds nothing

  /** The handler of the script as written: `except TimeoutException`. */
  function TimeoutOnlyHandler(f: Failure): bool
  {
    f == TimedOut
  }

  /** The handler the script evidently intends: any failed row is skipped. */
  function AnyFailureHandler(f: Failure): bool
  {
    true
  }

  /** One more pass appends its reads, and its keys join the seen set. */
  lemma PassStep<K>(batches: seq<Batch>, key: RawRow -> K, n: nat)
    ensures Collected(batches, n + 1) == Collected(batches, n) + Reads(View(batches, n))
    ensures KeysOf(key, Collected(batches, n + 1)) ==
              KeysOf(key, Collected(batches, n)) + KeysOf(key, Reads(View(batches, n)))
  {
    KeysOfAppend(key, Collected(batches, n), Reads(View(batches, n)));
  }

  /** Past the last batch the page is at its bottom: the view repeats the one before. */
  lemma BottomView(batches: seq<Batch>, n: nat)
    ensures 0 < |batches| <= n ==> View(batches, n) == View(batches, n - 1)
  {
  }

  /** Passes 0 .. n-1 each rendered rows, raised nothing and read a new key. */
  ghost predicate GrewThrough<K>(batches: seq<Batch>, key: RawRow -> K, caught: Failure -> bool, n: nat)
    decreases n
  {
    n == 0 ||
    (GrewThrough(batches, key, caught, n - 1) && PassOk(batches, n - 1, caught) && Grew(batches, key, n - 1))
  }

  lemma {:induction false} GrewThroughAt<K>(batches: seq<Batch>, key: RawRow -> K, caught: Failure -> bool, n: nat, j: nat)
    requires GrewThrough(batches, key, caught, n) && j < n
    ensures PassOk(batches, j, caught) && Grew(batches, key, j)
    decreases n
  {
    if j < n - 1 {
      GrewThroughAt(batches, key, caught, n - 1, j);
    }
  }

  /** Passes 0 .. n all went through when passes before n grew and pass n went through. */
  lemma PassesOk<K>(batches: seq<Batch>, key: RawRow -> K, caught: Failure -> bool, n: nat)
    requires GrewThrough(batches, key, caught, n) && PassOk(batches, n, caught)
    ensures forall j :: 0 <= j < n + 1 ==> PassOk(batches, j, caught)
  {
    forall j | 0 <= j < n + 1 ensures PassOk(batches, j, caught) {
      if j < n {
        GrewThroughAt(batches, key, caught, n, j);
      }
    }
  }

  lemma PassesGrew<K>(batches: seq<Batch>, key: RawRow -> K, caught: Failure -> bool, n: nat)
    requires GrewThrough(batches, key, caught, n)
    ensures forall j :: 0 <= j < n ==> Grew(batches, key, j)
  {
    forall j | 0 <= j < n ensures Grew(batches, key, j) {
      GrewThroughAt(batches, key, caught, n, j);
    }
  }

  /**
   * The state of a run after `n` passes that each rendered rows, raised nothing and read a
   * new key: the list and the set hold the first-seen records and all keys read so far.
   */
  ghost predicate Progressed<R, K>(batches: seq<Batch>, rec: RawRow -> R, key: RawRow -> K, caught: Failure -> bool,
                                   n: nat, data: seq<R>, seen: set<K>, skipped: nat)
  {
    && n <= |batches|
    && GrewThrough(batches, key, caught, n)
    && data == Records(rec, Dedup(key, Collected(batches, n)))
    && seen == KeysOf(key, Collected(batches, n))
    && skipped == SkippedIn(batches, n, caught)
    && (n > 0 ==> KeysOf(key, Reads(View(batches, n - 1))) <= seen)
  }

  /** Pass n harvested `data'` and `seen'` without raising. */
  ghost predicate Harvested<R, K>(batches: seq<Batch>, rec: RawRow -> R, key: RawRow -> K, caught: Failure -> bool,
                                  n: nat, data': seq<R>, seen': set<K>, sk: nat)
  {
    && PassOk(batches, n, caught)
    && Absorbed(rec, key, caught, Collected(batches, n), View(batches, n), data', seen', sk)
  }

  /** Harvesting `batch` after `before` leaves the list, set and skip count for `before` then the batch's reads. */
  ghost predicate Absorbed<R, K>(rec: RawRow -> R, key: RawRow -> K, caught: Failure -> bool,
                                 before: seq<RawRow>, batch: Batch, data': seq<R>, seen': set<K>, skipped: nat)
  {
    && data' == Records(rec, Dedup(key, before + Reads(batch)))
    && seen' == KeysOf(key, before + Reads(batch))
    && skipped == SkippedRows(batch, caught)
  }

  /** After a harvested pass, the list and the set are those of everything collected through it. */
  lemma HarvestedCollected<R, K>(batches: seq<Batch>, rec: RawRow -> R, key: RawRow -> K, caught: Failure -> bool,
                                 n: nat, data': seq<R>, seen': set<K>, sk: nat)
    requires Harvested(batches, rec, key, caught, n, data', seen', sk)
    ensures data' == Records(rec, Dedup(key, Collected(batches, n + 1)))
    ensures seen' == KeysOf(key, Collected(batches, n + 1))
    ensures sk == SkippedRows(View(batches, n), caught)
  {
    assert Collected(batches, n + 1) == Collected(batches, n) + Reads(View(batches, n));
  }

  /** A pass that read a new key continues the run; it cannot happen at the bottom of the page. */
  lemma PassContinues<R, K>(batches: seq<Batch>, rec: RawRow -> R, key: RawRow -> K, caught: Failure -> bool,
                            n: nat, data: seq<R>, seen: set<K>, skipped: nat, data': seq<R>, seen': set<K>, sk: nat)
    requires Progressed(batches, rec, key, caught, n, data, seen, skipped)
    requires Harvested(batches, rec, key, caught, n, data', seen', sk)
    requires !(KeysOf(key, Reads(View(batches, n))) <= seen)
    ensures n < |batches|
    ensures Progressed(batches, rec, key, caught, n + 1, data', seen', skipped + sk)
  {
    PassStep(batches, key, n);
    BottomView(batches, n);
  }

  /** A pass that read no new key ends the run with everything read so far. */
  lemma PassStops<R, K>(batches: seq<Batch>, rec: RawRow -> R, key: RawRow -> K, caught: Failure -> bool,
                        n: nat, data: seq<R>, seen: set<K>, skipped: nat, data': seq<R>, seen': set<K>, sk: nat)
    requires Progressed(batches, rec, key, caught, n, data, seen, skipped)
    requires Harvested(batches, rec, key, caught, n, data', seen', sk)
    requires KeysOf(key, Reads(View(batches, n))) <= seen
    ensures FinishedByStable(batches, rec, key, caught, Finished(data', seen', n + 1, n, skipped + sk, NoNewSongs))
  {
    HarvestedCollected(batches, rec, key, caught, n, data', seen', sk);
    PassesOk(batches, key, caught, n);
    PassesGrew(batches, key, caught, n);
  }

  /**
   * What a finished run of tests/beginner/test_02.py read: every pass rendered rows and raised
   * nothing past the handler, every pass but the last read a new key and was followed by one
   * PAGE_DOWN, and the last pass read no new key.
   */
  ghost predicate FinishedByStable<R, K>(batches: seq<Batch>, rec: RawRow -> R, key: RawRow -> K,
                                         caught: Failure -> bool, run: Run<R, K>)
    requires run.Finished?
  {
    && run.stop == NoNewSongs
    && run.passes == run.scrolls + 1 <= |batches| + 1
    && (forall j :: 0 <= j < run.passes ==> PassOk(batches, j, caught))
    && (forall j :: 0 <= j < run.scrolls ==> Grew(batches, key, j))
    && !Grew(batches, key, run.scrolls)
    && run.data == Records(rec, Dedup(key, Collected(batches, run.passes)))
    && run.seen == KeysOf(key, Collected(batches, run.passes))
    && run.skipped == SkippedIn(batches, run.passes, caught)
  }

  /** What an aborted run read before the pass that aborted, and why that pass aborted. */
  ghost predicate AbortedByStable<R, K>(batches: seq<Batch>, key: RawRow -> K, caught: Failure -> bool, run: Run<R, K>)
    requires run.Aborted?
  {
    && run.pass <= |batches|
    && (forall j :: 0 <= j < run.pass ==> PassOk(batches, j, caught) && Grew(batches, key, j))
    && PassAbort(View(batches, run.pass), caught) == Some(run.cause)
  }

  lemma StableAborts<R, K>(batches: seq<Batch>, key: RawRow -> K, caught: Failure -> bool, n: nat, cause: Abort)
    requires GrewThrough(batches, key, caught, n) && n <= |batches|
    requires PassAbort(View(batches, n), caught) == Some(cause)
    ensures AbortedByStable(batches, key, caught, Run<R, K>.Aborted(n, cause))
  {
    forall j | 0 <= j < n ensures PassOk(batches, j, caught) && Grew(batches, key, j) {
      GrewThroughAt(batches, key, caught, n, j);
    }
  }

  /**
   * One pass of the scroll loop after `n` scrolls: harvest the rendered batch, then either
   * end the run (`stop` holds it) or hand back the grown list, set and skip count.
   */
  method StablePass<R, K(==)>(batches: seq<Batch>, rec: RawRow -> R, key: RawRow -> K, caught: Failure -> bool,
                              n: nat, data: seq<R>, seen: set<K>, skipped: nat)
    returns (stop: Option<Run<R, K>>, data': seq<R>, seen': set<K>, skipped': nat)
    requires Progressed(batches, rec, key, caught, n, data, seen, skipped)
    ensures stop.Some? && stop.value.Finished? ==> FinishedByStable(batches, rec, key, caught, stop.value)
    ensures stop.Some? && stop.value.Aborted? ==> AbortedByStable(batches, key, caught, stop.value)
    ensures stop.None? ==> n < |batches| && Progressed(batches, rec, key, caught, n + 1, data', seen', skipped')
  {
    var batch := View(batches, n);
    if batch == [] {
      StableAborts<R, K>(batches, key, caught, n, NoRows);
      return Some(Aborted(n, NoRows)), data, seen, skipped;
    }
    ghost var before := Collected(batches, n);
    var raised, added, sk;
    raised, data', seen', added, sk := HarvestBatch(batch, rec, key, caught, data, seen, before);
    if raised.Some? {
      StableAborts<R, K>(batches, key, caught, n, RowRaised(raised.value));
      return Some(Aborted(n, RowRaised(raised.value))), data, seen, skipped;
    }
    if added == 0 {
      PassStops(batches, rec, key, caught, n, data, seen, skipped, data', seen', sk);
      return Some(Finished(data', seen', n + 1, n, skipped + sk, NoNewSongs)), data', seen', skipped + sk;
    }
    skipped' := skipped + sk;
    PassContinues(batches, rec, key, caught, n, data, seen, skipped, data', seen', sk);
    stop := None;
  }

  /**
   * The `while True` loop: harvest the current rows, stop when the seen set did not
   * grow, otherwise press PAGE_DOWN and repeat. `rec` builds the stored record, `key`
   * the identity key, `caught` is the per-row handler.
   */
  method CollectUntilStable<R, K(==)>(batches: seq<Batch>, rec: RawRow -> R, key: RawRow -> K,
                                      caught: Failure -> bool)
    returns (run: Run<R, K>)
    ensures run.Finished? ==> FinishedByStable(batches, rec, key, caught, run)
    ensures run.Aborted? ==> AbortedByStable(batches, key, caught, run)
  {
    var data: seq<R> := [];
    var seen: set<K> := {};
    var scrolls: nat := 0;
    var skipped: nat := 0;
    while true
      invariant Progressed(batches, rec, key, caught, scrolls, data, seen, skipped)
      decreases |batches| - scrolls
    {
      var stop;
      stop, data, seen, skipped := StablePass(batches, rec, key, caught, scrolls, data, seen, skipped);
      if stop.Some? {
        return stop.value;
      }
      scrolls := scrolls + 1;
    }
  }

  // ---------------------------------------------------------------------------
  // tests/beginnerTests/test_02.py and test_04.py: stop on no new songs or a repeated row count

  /** These scripts have no per-row handler: every failed row propagates. */
  function NoHandler(f: Failure): bool
  {
    false
  }

  /** Without a handler no row is ever skipped. */
  lemma {:induction false} NothingSkipped(batch: Batch)
    ensures SkippedRows(batch, NoHandler) == 0
  {
    if batch != [] {
      NothingSkipped(batch[..|batch| - 1]);
    }
  }

  /** No pass before n rendered as many rows as the pass before it. */
  ghost predicate NoRepeatThrough(batches: seq<Batch>, n: nat)
    decreases n
  {
    n == 0 || (NoRepeatThrough(batches, n - 1) && !SizeRepeats(batches, n - 1))
  }

  lemma {:induction false} NoRepeatThroughAt(batches: seq<Batch>, n: nat, j: nat)
    requires NoRepeatThrough(batches, n) && j < n
    ensures !SizeRepeats(batches, j)
    decreases n
  {
    if j < n - 1 {
      NoRepeatThroughAt(batches, n - 1, j);
    }
  }

  /**
   * What a finished run of the later scripts read: every pass rendered rows and raised nothing,
   * every pass but the last grew without repeating the row count, and the last one either
   * read no new key (no scroll after it) or repeated the row count (after its scroll).
   */
  ghost predicate FinishedByRepeat<R, K>(batches: seq<Batch>, rec: RawRow -> R, key: RawRow -> K, run: Run<R, K>)
    requires run.Finished?
  {
    && run.skipped == 0
    && 0 < run.passes <= |batches| + 1
    && (forall j :: 0 <= j < run.passes ==> PassOk(batches, j, NoHandler))
    && (forall j :: 0 <= j < run.passes - 1 ==> Grew(batches, key, j) && !SizeRepeats(batches, j))
    && (run.stop == NoNewSongs <==> !Grew(batches, key, run.passes - 1))
    && (run.stop == NoNewSongs ==> run.scrolls == run.passes - 1)
    && (run.stop == BatchSizeRepeated ==> run.scrolls == run.passes && SizeRepeats(batches, run.passes - 1))
    && run.data == Records(rec, Dedup(key, Collected(batches, run.passes)))
    && run.seen == KeysOf(key, Collected(batches, run.passes))
  }

  /** What an aborted run of the later scripts read before the pass that aborted. */
  ghost predicate AbortedByRepeat<R, K>(batches: seq<Batch>, key: RawRow -> K, run: Run<R, K>)
    requires run.Aborted?
  {
    && run.pass <= |batches|
    && (forall j :: 0 <= j < run.pass ==>
          PassOk(batches, j, NoHandler) && Grew(batches, key, j) && !SizeRepeats(batches, j))
    && PassAbort(View(batches, run.pass), NoHandler) == Some(run.cause)
  }

  /** The part of a finished run's outcome that does not depend on why it stopped. */
  lemma FinishedPasses<R, K>(batches: seq<Batch>, rec: RawRow -> R, key: RawRow -> K,
                             n: nat, data: seq<R>, seen: set<K>, data': seq<R>, seen': set<K>)
    requires Progressed(batches, rec, key, NoHandler, n, data, seen, 0) && NoRepeatThrough(batches, n)
    requires Harvested(batches, rec, key, NoHandler, n, data', seen', 0)
    ensures n + 1 <= |batches| + 1
    ensures forall j :: 0 <= j < n + 1 ==> PassOk(batches, j, NoHandler)
    ensures forall j :: 0 <= j < n ==> Grew(batches, key, j) && !SizeRepeats(batches, j)
    ensures data' == Records(rec, Dedup(key, Collected(batches, n + 1)))
    ensures seen' == KeysOf(key, Collected(batches, n + 1))
    ensures Grew(batches, key, n) <==> !(KeysOf(key, Reads(View(batches, n))) <= seen)
  {
    HarvestedCollected(batches, rec, key, NoHandler, n, data', seen', 0);
    PassesOk(batches, key, NoHandler, n);
    forall j | 0 <= j < n ensures Grew(batches, key, j) && !SizeRepeats(batches, j) {
      GrewThroughAt(batches, key, NoHandler, n, j);
      NoRepeatThroughAt(batches, n, j);
    }
  }

  /** Pass n read no new key: the run finishes without scrolling again. */
  lemma RepeatStopsNoNew<R, K>(batches: seq<Batch>, rec: RawRow -> R, key: RawRow -> K,
                               n: nat, data: seq<R>, seen: set<K>, data': seq<R>, seen': set<K>)
    requires Progressed(batches, rec, key, NoHandler, n, data, seen, 0) && NoRepeatThrough(batches, n)
    requires Harvested(batches, rec, key, NoHandler, n, data', seen', 0)
    requires KeysOf(key, Reads(View(batches, n))) <= seen
    ensures FinishedByRepeat(batches, rec, key, Finished(data', seen', n + 1, n, 0, NoNewSongs))
  {
    FinishedPasses(batches, rec, key, n, data, seen, data', seen');
  }

  /** Pass n grew but rendered as many rows as pass n - 1: the run finishes after its scroll. */
  lemma RepeatStopsOnSize<R, K>(batches: seq<Batch>, rec: RawRow -> R, key: RawRow -> K,
                                n: nat, data: seq<R>, seen: set<K>, data': seq<R>, seen': set<K>)
    requires Progressed(batches, rec, key, NoHandler, n, data, seen, 0) && NoRepeatThrough(batches, n)
    requires Harvested(batches, rec, key, NoHandler, n, data', seen', 0)
    requires !(KeysOf(key, Reads(View(batches, n))) <= seen) && SizeRepeats(batches, n)
    ensures FinishedByRepeat(batches, rec, key, Finished(data', seen', n + 1, n + 1, 0, BatchSizeRepeated))
  {
    FinishedPasses(batches, rec, key, n, data, seen, data', seen');
  }

  /** Pass n aborts a run of the later scripts. */
  lemma RepeatAborts<R, K>(batches: seq<Batch>, key: RawRow -> K, n: nat, cause: Abort)
    requires NoRepeatThrough(batches, n) && GrewThrough(batches, key, NoHandler, n) && n <= |batches|
    requires PassAbort(View(batches, n), NoHandler) == Some(cause)
    ensures AbortedByRepeat(batches, key, Run<R, K>.Aborted(n, cause))
  {
    forall j | 0 <= j < n ensures PassOk(batches, j, NoHandler) && Grew(batches, key, j) && !SizeRepeats(batches, j) {
      GrewThroughAt(batches, key, NoHandler, n, j);
      NoRepeatThroughAt(batches, n, j);
    }
  }

  /**
   * The `while True` loop of the two later scripts: harvest the current rows counting the
   * new keys (`newSongs`), stop when there were none, otherwise press PAGE_DOWN and stop
   * when the pass rendered as many rows as the one before (`lastCount`).
   */
  method CollectUntilRepeat<R, K(==)>(batches: seq<Batch>, rec: RawRow -> R, key: RawRow -> K)
    returns (run: Run<R, K>)
    ensures run.Finished? ==> FinishedByRepeat(batches, rec, key, run)
    ensures run.Aborted? ==> AbortedByRepeat(batches, key, run)
  {
    var data: seq<R> := [];
    var seen: set<K> := {};
    var lastCount: nat := 0;
    var scrolls: nat := 0;
    while true
      invariant Progressed(batches, rec, key, NoHandler, scrolls, data, seen, 0)
      invariant NoRepeatThrough(batches, scrolls)
      invariant lastCount == if scrolls == 0 then 0 else |View(batches, scrolls - 1)|
      decreases |batches| - scrolls
    {
      var songs := View(batches, scrolls);
      if songs == [] {
        RepeatAborts<R, K>(batches, key, scrolls, NoRows);
        return Aborted(scrolls, NoRows);
      }
      ghost var before := Collected(batches, scrolls);
      var raised, data', seen', newSongs, _ := HarvestBatch(songs, rec, key, NoHandler, data, seen, before);
      if raised.Some? {
        RepeatAborts<R, K>(batches, key, scrolls, RowRaised(raised.value));
        return Aborted(scrolls, RowRaised(raised.value));
      }
      NothingSkipped(songs);
      assert Harvested(batches, rec, key, NoHandler, scrolls, data', seen', 0);
      if newSongs == 0 {
        RepeatStopsNoNew(batches, rec, key, scrolls, data, seen, data', seen');
        return Finished(data', seen', scrolls + 1, scrolls, 0, NoNewSongs);
      }
      if |songs| == lastCount {
        RepeatStopsOnSize(batches, rec, key, scrolls, data, seen, data', seen');
        return Finished(data', seen', scrolls + 1, scrolls + 1, 0, BatchSizeRepeated);
      }
      PassContinues(batches, rec, key, NoHandler, scrolls, data, seen, 0, data', seen', 0);
      data, seen, lastCount := data', seen', |songs|;
      scrolls := scrolls + 1;
    }
  }

  // ---------------------------------------------------------------------------
  // Properties of the collected list and set

  /** The list and the set always have the same size, and no two stored records share a key. */
  lemma {:induction false} RecordsDistinct<R, K>(rec: RawRow -> R, key: RawRow -> K, recKey: R -> K, rows: seq<RawRow>)
    requires forall x :: recKey(rec(x)) == key(x)
    ensures |Records(rec, Dedup(key, rows))| == |KeysOf(key, rows)|
    ensures forall i, j :: 0 <= i < j < |Records(rec, Dedup(key, rows))| ==>
              recKey(Records(rec, Dedup(key, rows))[i]) != recKey(Records(rec, Dedup(key, rows))[j])
  {
    DedupKeys(key, rows);
    var d := Dedup(key, rows);
    var out := Records(rec, d);
    forall i, j | 0 <= i < j < |out| ensures recKey(out[i]) != recKey(out[j]) {
      RecordsAt(rec, d, i);
      RecordsAt(rec, d, j);
    }
  }

  lemma {:induction false} CollectedPrefix(batches: seq<Batch>, n: nat, m: nat)
    requires n <= m
    ensures Collected(batches, n) <= Collected(batches, m)
    decreases m - n
  {
    if n < m {
      CollectedPrefix(batches, n, m - 1);
    }
  }

  /**
   * Growth is monotone: the records and keys held after n passes are a prefix and a subset
   * of those held after any later pass, so nothing stored is ever removed or reordered.
   */
  lemma RunGrows<R, K>(batches: seq<Batch>, rec: RawRow -> R, key: RawRow -> K, n: nat, m: nat)
    requires n <= m
    ensures Records(rec, Dedup(key, Collected(batches, n))) <= Records(rec, Dedup(key, Collected(batches, m)))
    ensures KeysOf(key, Collected(batches, n)) <= KeysOf(key, Collected(batches, m))
  {
    CollectedPrefix(batches, n, m);
    DedupMonotone(key, Collected(batches, n), Collected(batches, m));
    RecordsPrefix(rec, Dedup(key, Collected(batches, n)), Dedup(key, Collected(batches, m)));
  }

  /** A row whose failure the handler catches changes neither what is read nor whether the pass raises. */
  lemma {:induction false} CaughtRowInvisible(batch: Batch, caught: Failure -> bool, f: Failure)
    requires caught(f)
    ensures Reads(batch + [Failed(f)]) == Reads(batch)
    ensures FirstUncaught(batch + [Failed(f)], caught) == FirstUncaught(batch, caught)
    ensures SkippedRows(batch + [Failed(f)], caught) == SkippedRows(batch, caught) + 1
  {
    assert (batch + [Failed(f)])[..|batch|] == batch;
  }

  /** A row the handler does not catch makes the pass raise unless an earlier row already did. */
  lemma UncaughtRowRaises(batch: Batch, caught: Failure -> bool, f: Failure)
    requires !caught(f)
    ensures FirstUncaught(batch + [Failed(f)], caught).Some?
    ensures FirstUncaught(batch, caught) == None ==> FirstUncaught(batch + [Failed(f)], caught) == Some(f)
  {
    assert (batch + [Failed(f)])[..|batch|] == batch;
  }

  /** A pass raises with the handler `except TimeoutException` exactly when some row failed otherwise. */
  lemma {:induction false} TimeoutOnlyRaises(batch: Batch)
    ensures FirstUncaught(batch, TimeoutOnlyHandler).Some? <==>
              exists i :: 0 <= i < |batch| && batch[i] == Failed(NoSuchElement)
  {
    if batch != [] {
      var init := batch[..|batch| - 1];
      TimeoutOnlyRaises(init);
      if exists i :: 0 <= i < |init| && init[i] == Failed(NoSuchElement) {
        var i :| 0 <= i < |init| && init[i] == Failed(NoSuchElement);
        assert batch[i] == init[i];
      }
      if exists i :: 0 <= i < |batch| && batch[i] == Failed(NoSuchElement) {
        var i :| 0 <= i < |batch| && batch[i] == Failed(NoSuchElement);
        if i < |init| {
          assert init[i] == batch[i];
        }
      }
    }
  }

  /** The failure a pass raises is one its handler does not catch. */
  lemma {:induction false} FirstUncaughtNotCaught(batch: Batch, caught: Failure -> bool)
    ensures FirstUncaught(batch, caught).Some? ==> !caught(FirstUncaught(batch, caught).value)
  {
    if batch != [] {
      FirstUncaughtNotCaught(batch[..|batch| - 1], caught);
    }
  }

  /** With a handler that catches every failure, no pass ever raises. */
  lemma {:induction false} AnyFailureNeverRaises(batch: Batch)
    ensures FirstUncaught(batch, AnyFailureHandler) == None
  {
    if batch != [] {
      AnyFailureNeverRaises(batch[..|batch| - 1]);
    }
  }

  // ---------------------------------------------------------------------------
  // The three scripts

  /** tests/beginner/test_02.py as written: only `TimeoutException` is caught per row. */
  method CollectPlaylistAsWritten(batches: seq<Batch>) returns (run: Run<Track, TrackKey>)
    ensures run.Finished? ==>
              && run.stop == NoNewSongs
              && run.data == Records(TrackOf, Dedup(RowKey, Collected(batches, run.passes)))
              && |run.data| == |run.seen|
              && (forall i, j :: 0 <= i < j < |run.data| ==> TrackKeyOf(run.data[i]) != TrackKeyOf(run.data[j]))
    ensures run.Aborted? ==>
              (run.cause == NoRows <==> View(batches, run.pass) == []) &&
              (run.cause.RowRaised? ==> run.cause.failure == NoSuchElement)
    ensures run.Finished? ==> FinishedByStable(batches, TrackOf, RowKey, TimeoutOnlyHandler, run)
    ensures run.Aborted? ==> AbortedByStable(batches, RowKey, TimeoutOnlyHandler, run)
  {
    run := CollectUntilStable(batches, TrackOf, RowKey, TimeoutOnlyHandler);
    if run.Finished? {
      RecordsDistinct(TrackOf, RowKey, TrackKeyOf, Collected(batches, run.passes));
    } else {
      FirstUncaughtNotCaught(View(batches, run.pass), TimeoutOnlyHandler);
    }
  }

  /** tests/beginner/test_02.py with the row handler it evidently intends: a row missing a field is skipped. */
  method CollectPlaylist(batches: seq<Batch>) returns (run: Run<Track, TrackKey>)
    ensures run.Finished? ==>
              && run.stop == NoNewSongs
              && run.data == Records(TrackOf, Dedup(RowKey, Collected(batches, run.passes)))
              && |run.data| == |run.seen|
              && (forall i, j :: 0 <= i < j < |run.data| ==> TrackKeyOf(run.data[i]) != TrackKeyOf(run.data[j]))
    ensures run.Aborted? ==> run.cause == NoRows && View(batches, run.pass) == []
    ensures run.Finished? ==> FinishedByStable(batches, TrackOf, RowKey, AnyFailureHandler, run)
    ensures run.Aborted? ==> AbortedByStable(batches, RowKey, AnyFailureHandler, run)
  {
    run := CollectUntilStable(batches, TrackOf, RowKey, AnyFailureHandler);
    if run.Finished? {
      RecordsDistinct(TrackOf, RowKey, TrackKeyOf, Collected(batches, run.passes));
    } else {
      AnyFailureNeverRaises(View(batches, run.pass));
    }
  }

  /** tests/beginnerTests/test_02.py: tracks keyed on the song name and the split artist list. */
  method CollectPlaylistCounted(batches: seq<Batch>) returns (run: Run<Track, TrackKey>)
    ensures run.Finished? ==>
              && run.data == Records(TrackOf, Dedup(RowKey, Collected(batches, run.passes)))
              && |run.data| == |run.seen|
              && (forall i, j :: 0 <= i < j < |run.data| ==> TrackKeyOf(run.data[i]) != TrackKeyOf(run.data[j]))
    ensures run.Aborted? ==> PassAbort(View(batches, run.pass), NoHandler) == Some(run.cause)
    ensures run.Finished? ==> FinishedByRepeat(batches, TrackOf, RowKey, run)
    ensures run.Aborted? ==> AbortedByRepeat(batches, RowKey, run)
  {
    run := CollectUntilRepeat(batches, TrackOf, RowKey);
    if run.Finished? {
      RecordsDistinct(TrackOf, RowKey, TrackKeyOf, Collected(batches, run.passes));
    }
  }

  /** tests/beginnerTests/test_04.py as written: keyed on the song name and the artists element handle. */
  method CollectPlaylistByHandle(batches: seq<Batch>) returns (run: Run<TrackRow, (string, nat)>)
    ensures run.Finished? ==>
              && run.data == Records(TrackRowOf, Dedup(HandleKey, Collected(batches, run.passes)))
              && |run.data| == |run.seen|
    ensures run.Aborted? ==> PassAbort(View(batches, run.pass), NoHandler) == Some(run.cause)
    ensures run.Finished? ==> FinishedByRepeat(batches, TrackRowOf, HandleKey, run)
    ensures run.Aborted? ==> AbortedByRepeat(batches, HandleKey, run)
  {
    run := CollectUntilRepeat(batches, TrackRowOf, HandleKey);
    if run.Finished? {
      DedupKeys(HandleKey, Collected(batches, run.passes));
    }
  }

  /** tests/beginnerTests/test_04.py keyed, as evidently intended, on the artists text it stores. */
  method CollectPlaylistByText(batches: seq<Batch>) returns (run: Run<TrackRow, (string, string)>)
    ensures run.Finished? ==>
              && run.data == Records(TrackRowOf, Dedup(TextKey, Collected(batches, run.passes)))
              && |run.data| == |run.seen|
              && (forall i, j :: 0 <= i < j < |run.data| ==> TrackRowKeyOf(run.data[i]) != TrackRowKeyOf(run.data[j]))
    ensures run.Aborted? ==> PassAbort(View(batches, run.pass), NoHandler) == Some(run.cause)
    ensures run.Finished? ==> FinishedByRepeat(batches, TrackRowOf, TextKey, run)
    ensures run.Aborted? ==> AbortedByRepeat(batches, TextKey, run)
  {
    run := CollectUntilRepeat(batches, TrackRowOf, TextKey);
    if run.Finished? {
      RecordsDistinct(TrackRowOf, TextKey, TrackRowKeyOf, Collected(batches, run.passes));
    }
  }

  /**
   * Of two rows read in turn, the second is dropped as already seen exactly when it has the
   * first's song name and artists element (handle key), whatever the texts; keyed on the text,
   * exactly when the song names and the stripped artists texts agree.
   */
  lemma HandleKeyIdentity(a: RawRow, b: RawRow)
    ensures Dedup(HandleKey, [a, b]) == [a] <==> a.songName == b.songName && a.artistsElement == b.artistsElement
    ensures Dedup(TextKey, [a, b]) == [a] <==> a.songName == b.songName && Trim(a.artistsText) == Trim(b.artistsText)
  {
    assert [a, b] == [a] + [b];
    assert [a] == [] + [a];
    DedupSnoc(HandleKey, [], a);
    DedupSnoc(HandleKey, [a], b);
    DedupSnoc(TextKey, [], a);
    DedupSnoc(TextKey, [a], b);
  }

  /** Keying on the element handle keeps the same song twice when it is rendered by two elements. */
  lemma HandleKeyKeepsDuplicates(a: RawRow, b: RawRow)
    requires a.songName == b.songName && a.artistsText == b.artistsText
    requires a.artistsElement != b.artistsElement
    ensures |Records(TrackRowOf, Dedup(HandleKey, [a, b]))| == 2
    ensures TrackRowKeyOf(Records(TrackRowOf, Dedup(HandleKey, [a, b]))[0]) ==
            TrackRowKeyOf(Records(TrackRowOf, Dedup(HandleKey, [a, b]))[1])
  {
    assert [a, b][..1] == [a];
    assert [a][..0] == [];
    DedupSnoc(HandleKey, [a], b);
    DedupSnoc(HandleKey, [], a);
    assert Dedup(HandleKey, [a, b]) == [a, b];
    RecordsAt(TrackRowOf, [a, b], 0);
    RecordsAt(TrackRowOf, [a, b], 1);
  }

  /** Keyed on the text, the same two renderings are stored once. */
  lemma TextKeyMergesDuplicates(a: RawRow, b: RawRow)
    requires a.songName == b.songName && a.artistsText == b.artistsText
    ensures Records(TrackRowOf, Dedup(TextKey, [a, b])) == [TrackRowOf(a)]
  {
    assert [a, b][..1] == [a];
    assert [a][..0] == [];
    DedupSnoc(TextKey, [a], b);
    DedupSnoc(TextKey, [], a);
    assert Dedup(TextKey, [a, b]) == [a];
    assert [a][..0] == [];
  }
}
