/**
 * The output stage of the playlist scripts: the collected records written as a CSV table
 * under a fixed six-column header, and as a JSON array of six-key objects.
 *
 * Files are modelled by what is written into them: a CSV file as its sequence of rows of
 * cells, a JSON file as the value handed to `json.dump`. Each writer has a reader partner,
 * and the round-trip lemmas say what a consumer of the files gets back.
 */
module Sink {
  import opened Base
  import opened Text
  import opened Deduplication
  import opened Playlist

  // ---------------------------------------------------------------------------
  // Tables and JSON values

  /** The CSV header every playlist script writes first. */
  const Header: seq<string> := ["Ranking", "Song", "Artists", "Reproductions", "Album", "Duration"]

  /** The JSON values the scripts produce: strings, lists and objects with ordered keys. */
  datatype Json = JString(s: string) | JArray(items: seq<Json>) | JObject(members: seq<(string, Json)>)

  /** The value of the first member named `k`, as `dict[k]` reads it. */
  function Lookup(members: seq<(string, Json)>, k: string): (v: Option<Json>)
  {
    if members == [] then None
    else if members[0].0 == k then Some(members[0].1)
    else Lookup(members[1..], k)
  }

  /** An object whose keys are exactly `keys`, in that order. */
  predicate KeyedBy(j: Json, keys: seq<string>)
  {
    j.JObject? && |j.members| == |keys| && forall i :: 0 <= i < |keys| ==> j.members[i].0 == keys[i]
  }

  /** An object whose keys are exactly the header's names, in the header's order. */
  predicate KeyedByHeader(j: Json)
  {
    KeyedBy(j, Header)
  }

  lemma HeaderDistinct()
    ensures Distinct(Header)
  {
    assert Header[0][0] == 'R' && Header[2][0] == 'A';
  }

  /** Looking a key up finds its first occurrence. */
  lemma {:induction false} LookupFirst(members: seq<(string, Json)>, i: nat, k: string)
    requires i < |members| && members[i].0 == k
    requires forall j :: 0 <= j < i ==> members[j].0 != k
    ensures Lookup(members, k) == Some(members[i].1)
  {
    if i > 0 {
      LookupFirst(members[1..], i - 1, k);
    }
  }

  /** In an object keyed by distinct names, each name finds its own member's value. */
  lemma KeyedLookup(j: Json, keys: seq<string>, i: nat)
    requires KeyedBy(j, keys) && Distinct(keys) && i < |keys|
    ensures Lookup(j.members, keys[i]) == Some(j.members[i].1)
  {
    LookupFirst(j.members, i, keys[i]);
  }

  /** In an object keyed by the header, each header name finds its own column's value. */
  lemma HeaderLookup(j: Json, i: nat)
    requires KeyedByHeader(j) && i < |Header|
    ensures Lookup(j.members, Header[i]) == Some(j.members[i].1)
  {
    HeaderDistinct();
    KeyedLookup(j, Header, i);
  }

  /** The string held under `k`, if there is one. */
  function StringField(members: seq<(string, Json)>, k: string): Option<string>
  {
    match Lookup(members, k)
    case Some(JString(s)) => Some(s)
    case _ => None
  }

  /** A list of strings as JSON. */
  function StringsJson(xs: seq<string>): (items: seq<Json>)
    ensures |items| == |xs|
  {
    if xs == [] then [] else [JString(xs[0])] + StringsJson(xs[1..])
  }

  /** The strings of a JSON list, or None when an item is not a string. */
  function JsonStrings(items: seq<Json>): Option<seq<string>>
  {
    if items == [] then Some([])
    else match (items[0], JsonStrings(items[1..]))
      case (JString(s), Some(rest)) => Some([s] + rest)
      case _ => None
  }

  lemma {:induction false} StringsRoundTrip(xs: seq<string>)
    ensures JsonStrings(StringsJson(xs)) == Some(xs)
  {
    if xs != [] {
      StringsRoundTrip(xs[1..]);
      assert [xs[0]] + xs[1..] == xs;
    }
  }

  /** The string list held under `k`, if there is one. */
  function ListField(members: seq<(string, Json)>, k: string): Option<seq<string>>
  {
    match Lookup(members, k)
    case Some(JArray(items)) => JsonStrings(items)
    case _ => None
  }

  // ---------------------------------------------------------------------------
  // Writing and reading a whole file, for any record type

  /** The rows `writer.writerows` receives: one row of cells per record, in order. */
  function CsvRows<T>(cells: T -> seq<string>, data: seq<T>): (rows: seq<seq<string>>)
    ensures |rows| == |data|
  {
    if data == [] then [] else [cells(data[0])] + CsvRows(cells, data[1..])
  }

  /** Reads every row or item back with `decode`; None as soon as one does not decode. */
  function DecodeAll<A, T>(decode: A -> Option<T>, rows: seq<A>): (data: Option<seq<T>>)
    ensures data.Some? ==> |data.value| == |rows|
  {
    if rows == [] then Some([])
    else match (decode(rows[0]), DecodeAll(decode, rows[1..]))
      case (Some(x), Some(rest)) => Some([x] + rest)
      case _ => None
  }

  /** A CSV file: the header, then the rows. */
  function ReadCsv<T>(decode: seq<string> -> Option<T>, table: seq<seq<string>>): Option<seq<T>>
  {
    if table == [] || table[0] != Header then None else DecodeAll(decode, table[1..])
  }

  /**
   * Writing records a reader can decode and reading the file back gives every record back,
   * in order: the table holds one row per record and nothing else.
   */
  lemma {:induction false} CsvFileRoundTrip<T>(cells: T -> seq<string>, decode: seq<string> -> Option<T>, data: seq<T>)
    requires forall i :: 0 <= i < |data| ==> decode(cells(data[i])) == Some(data[i])
    ensures ReadCsv(decode, [Header] + CsvRows(cells, data)) == Some(data)
  {
    assert ([Header] + CsvRows(cells, data))[1..] == CsvRows(cells, data);
    CsvRowsRoundTrip(cells, decode, data);
  }

  lemma {:induction false} CsvRowsRoundTrip<T>(cells: T -> seq<string>, decode: seq<string> -> Option<T>, data: seq<T>)
    requires forall i :: 0 <= i < |data| ==> decode(cells(data[i])) == Some(data[i])
    ensures DecodeAll(decode, CsvRows(cells, data)) == Some(data)
  {
    if data != [] {
      assert decode(cells(data[0])) == Some(data[0]);
      assert forall i :: 0 <= i < |data| - 1 ==> data[1..][i] == data[i + 1];
      CsvRowsRoundTrip(cells, decode, data[1..]);
      assert [data[0]] + data[1..] == data;
    }
  }

  /** The list `json.dump` receives: one object per record, in order (a list comprehension). */
  function JsonArray<T>(obj: T -> Json, data: seq<T>): (doc: Json)
    ensures doc.JArray? && |doc.items| == |data|
  {
    JArray(seq(|data|, i requires 0 <= i < |data| => obj(data[i])))
  }

  function ReadJson<T>(decode: Json -> Option<T>, doc: Json): Option<seq<T>>
  {
    if doc.JArray? then DecodeAll(decode, doc.items) else None
  }

  /** Dumping records a reader can decode and loading the file back gives every record back, in order. */
  lemma {:induction false} JsonFileRoundTrip<T>(obj: T -> Json, decode: Json -> Option<T>, data: seq<T>)
    requires forall i :: 0 <= i < |data| ==> decode(obj(data[i])) == Some(data[i])
    ensures ReadJson(decode, JsonArray(obj, data)) == Some(data)
  {
    JsonItemsRoundTrip(obj, decode, data);
  }

  lemma {:induction false} JsonItemsRoundTrip<T>(obj: T -> Json, decode: Json -> Option<T>, data: seq<T>)
    requires forall i :: 0 <= i < |data| ==> decode(obj(data[i])) == Some(data[i])
    ensures DecodeAll(decode, JsonArray(obj, data).items) == Some(data)
  {
    if data != [] {
      var items := JsonArray(obj, data).items;
      assert items[0] == obj(data[0]);
      assert items[1..] == JsonArray(obj, data[1..]).items;
      assert forall i :: 0 <= i < |data| - 1 ==> data[1..][i] == data[i + 1];
      JsonItemsRoundTrip(obj, decode, data[1..]);
      assert [data[0]] + data[1..] == data;
    }
  }

  // ---------------------------------------------------------------------------
  // tests/beginner/test_02.py and tests/beginnerTests/test_02.py: artists flattened for the CSV

  /** The CSV row of a track: the artist list joined with ", ". */
  function TrackCells(t: Track): (cells: seq<string>)
  {
    [t.ranking, t.song, JoinArtists(t.artists), t.reproductions, t.album, t.duration]
  }

  /** Reading a CSV row back, re-splitting the artists cell the way the scraper splits it. */
  function CellsTrack(cells: seq<string>): (t: Option<Track>)
    ensures t.Some? <==> |cells| == |Header|
    ensures t.Some? ==> TrackCells(t.value)[0..2] == cells[0..2] && TrackCells(t.value)[3..] == cells[3..]
  {
    if |cells| != |Header| then None
    else Some(Track(cells[0], cells[1], SplitArtists(cells[2]), cells[3], cells[4], cells[5]))
  }

  /**
   * The loop that builds `csv_data`: one tuple per entry of `all_data`, in order, with the
   * artist list flattened; the header is written before it.
   */
  method CsvTable(data: seq<Track>) returns (table: seq<seq<string>>)
    ensures table == [Header] + CsvRows(TrackCells, data)
  {
    var csvData: seq<seq<string>> := [];
    var i := 0;
    while i < |data|
      invariant i <= |data|
      invariant csvData == CsvRows(TrackCells, data[..i])
    {
      CsvRowsSnoc(TrackCells, data[..i], data[i]);
      assert data[..i + 1] == data[..i] + [data[i]];
      csvData := csvData + [TrackCells(data[i])];
      i := i + 1;
    }
    assert data[..i] == data;
    table := [Header] + csvData;
  }

  lemma {:induction false} CsvRowsSnoc<T>(cells: T -> seq<string>, data: seq<T>, x: T)
    ensures CsvRows(cells, data + [x]) == CsvRows(cells, data) + [cells(x)]
  {
    if data != [] {
      assert (data + [x])[1..] == data[1..] + [x];
      CsvRowsSnoc(cells, data[1..], x);
    } else {
      assert data + [x] == [x];
    }
  }

  /** A track whose artist list SplitArtists could have produced survives the CSV row. */
  lemma TrackCellsRoundTrip(t: Track)
    requires WellFormedArtists(t.artists)
    ensures CellsTrack(TrackCells(t)) == Some(t)
  {
    SplitJoinArtists(t.artists);
  }

  /** Every track the collectors store has such an artist list. */
  lemma CollectedTracksWellFormed(rows: seq<RawRow>, i: nat)
    requires i < |Records(TrackOf, rows)|
    ensures WellFormedArtists(Records(TrackOf, rows)[i].artists)
  {
    RecordsAt(TrackOf, rows, i);
    SplitArtistsWellFormed(rows[i].artistsText);
  }

  /**
   * The CSV a finished run writes reads back as exactly the collected tracks, in order:
   * flattening the artists with ", " loses nothing, because SplitArtists re-splits it.
   */
  lemma CsvKeepsCollected(rows: seq<RawRow>)
    ensures ReadCsv(CellsTrack, [Header] + CsvRows(TrackCells, Records(TrackOf, rows))) == Some(Records(TrackOf, rows))
  {
    var data := Records(TrackOf, rows);
    forall i | 0 <= i < |data| ensures CellsTrack(TrackCells(data[i])) == Some(data[i]) {
      CollectedTracksWellFormed(rows, i);
      TrackCellsRoundTrip(data[i]);
    }
    CsvFileRoundTrip(TrackCells, CellsTrack, data);
  }

  /** The JSON object of a track: six keys, `Artists` kept as the list. */
  function TrackJson(t: Track): (j: Json)
    ensures KeyedByHeader(j)
  {
    JObject([(Header[0], JString(t.ranking)), (Header[1], JString(t.song)),
             (Header[2], JArray(StringsJson(t.artists))), (Header[3], JString(t.reproductions)),
             (Header[4], JString(t.album)), (Header[5], JString(t.duration))])
  }

  /** Reading a track object back by its keys. */
  function JsonTrack(j: Json): (t: Option<Track>)
  {
    if !j.JObject? then None
    else
      var m := j.members;
      var ranking, song, artists := StringField(m, Header[0]), StringField(m, Header[1]), ListField(m, Header[2]);
      var reproductions, album, duration := StringField(m, Header[3]), StringField(m, Header[4]), StringField(m, Header[5]);
      if ranking.Some? && song.Some? && artists.Some? && reproductions.Some? && album.Some? && duration.Some? then
        Some(Track(ranking.value, song.value, artists.value, reproductions.value, album.value, duration.value))
      else None
  }

  /** Every track survives its JSON object, with no condition on its artist list. */
  lemma TrackJsonRoundTrip(t: Track)
    ensures KeyedByHeader(TrackJson(t))
    ensures JsonTrack(TrackJson(t)) == Some(t)
  {
    TrackFields(t);
  }

  lemma TrackFields(t: Track)
    ensures KeyedByHeader(TrackJson(t))
    ensures var m := TrackJson(t).members;
            && StringField(m, Header[0]) == Some(t.ranking) && StringField(m, Header[1]) == Some(t.song)
            && ListField(m, Header[2]) == Some(t.artists) && StringField(m, Header[3]) == Some(t.reproductions)
            && StringField(m, Header[4]) == Some(t.album) && StringField(m, Header[5]) == Some(t.duration)
  {
    StringsRoundTrip(t.artists);
    var j := TrackJson(t);
    assert KeyedByHeader(j);
    HeaderLookup(j, 0);
    HeaderLookup(j, 1);
    HeaderLookup(j, 2);
    HeaderLookup(j, 3);
    HeaderLookup(j, 4);
    HeaderLookup(j, 5);
  }

  /** The JSON a run writes loads back as exactly its records, in order. */
  lemma JsonKeepsTracks(data: seq<Track>)
    ensures ReadJson(JsonTrack, JsonArray(TrackJson, data)) == Some(data)
  {
    forall i | 0 <= i < |data| ensures JsonTrack(TrackJson(data[i])) == Some(data[i]) {
      TrackJsonRoundTrip(data[i]);
    }
    JsonFileRoundTrip(TrackJson, JsonTrack, data);
  }

  // ---------------------------------------------------------------------------
  // tests/beginnerTests/test_04.py: the stored tuples written unchanged

  /** The stored tuple as a CSV row, cell for cell. */
  function RowCells(r: TrackRow): (cells: seq<string>)
  {
    [r.ranking, r.song, r.artists, r.reproductions, r.album, r.duration]
  }

  function CellsRow(cells: seq<string>): (r: Option<TrackRow>)
    ensures r.Some? <==> |cells| == |Header|
    ensures r.Some? ==> RowCells(r.value) == cells
  {
    if |cells| != |Header| then None
    else Some(TrackRow(cells[0], cells[1], cells[2], cells[3], cells[4], cells[5]))
  }

  /** `writer.writerows(allData)` under the header. */
  function RowTable(data: seq<TrackRow>): (table: seq<seq<string>>)
    ensures |table| == |data| + 1 && table[0] == Header
  {
    [Header] + CsvRows(RowCells, data)
  }

  /** The file holds exactly the stored tuples, unchanged and in order. */
  lemma RowTableKeepsRows(data: seq<TrackRow>)
    ensures ReadCsv(CellsRow, RowTable(data)) == Some(data)
  {
    forall i | 0 <= i < |data| ensures CellsRow(RowCells(data[i])) == Some(data[i]) {
    }
    CsvFileRoundTrip(RowCells, CellsRow, data);
  }

  /** The JSON object of a stored tuple: six keys, `Artists` the stripped text. */
  function RowJson(r: TrackRow): (j: Json)
    ensures KeyedByHeader(j)
  {
    JObject([(Header[0], JString(r.ranking)), (Header[1], JString(r.song)),
             (Header[2], JString(r.artists)), (Header[3], JString(r.reproductions)),
             (Header[4], JString(r.album)), (Header[5], JString(r.duration))])
  }

  function JsonRow(j: Json): (r: Option<TrackRow>)
  {
    if !j.JObject? then None
    else
      var m := j.members;
      var ranking, song, artists := StringField(m, Header[0]), StringField(m, Header[1]), StringField(m, Header[2]);
      var reproductions, album, duration := StringField(m, Header[3]), StringField(m, Header[4]), StringField(m, Header[5]);
      if ranking.Some? && song.Some? && artists.Some? && reproductions.Some? && album.Some? && duration.Some? then
        Some(TrackRow(ranking.value, song.value, artists.value, reproductions.value, album.value, duration.value))
      else None
  }

  /** Every stored tuple survives its JSON object. */
  lemma RowJsonRoundTrip(r: TrackRow)
    ensures KeyedByHeader(RowJson(r))
    ensures JsonRow(RowJson(r)) == Some(r)
  {
    var j := RowJson(r);
    assert KeyedByHeader(j);
    HeaderLookup(j, 0);
    HeaderLookup(j, 1);
    HeaderLookup(j, 2);
    HeaderLookup(j, 3);
    HeaderLookup(j, 4);
    HeaderLookup(j, 5);
  }

  /** The JSON loads back as exactly the stored tuples, in order. */
  lemma JsonKeepsRows(data: seq<TrackRow>)
    ensures ReadJson(JsonRow, JsonArray(RowJson, data)) == Some(data)
  {
    forall i | 0 <= i < |data| ensures JsonRow(RowJson(data[i])) == Some(data[i]) {
      RowJsonRoundTrip(data[i]);
    }
    JsonFileRoundTrip(RowJson, JsonRow, data);
  }
}
