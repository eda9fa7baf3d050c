/**
 * Artist-profile assembly (projects/beginner/test_03.py, tests/beginnerTests/test_03.py and
 * tests/beginnerTests/test_05.py). Each script loads the playlist JSON, gathers every artist
 * the songs name, picks three of them, and for each one scrolls the artist's page until the
 * "about" button shows, opens the dialog and reads ranking, followers, monthly listeners and
 * top cities from it.
 *
 * The browser is replaced by a `site` function giving, for every artist name, what that
 * artist's page offers to the locators.
 */
module Profiles {
  import opened Base
  import opened Text
  import opened Sink
  import Playlist

  // ---------------------------------------------------------------------------
  // The candidate artists: `artists.update(song["Artists"])` for every song

  /** The names in one artist list, as a set. */
  function Members(names: seq<string>): set<string>
  {
    set j | 0 <= j < |names| :: names[j]
  }

  /** Every name that occurs in some song's artist list. */
  function ArtistsOf(songs: seq<seq<string>>): set<string>
  {
    if songs == [] then {}
    else ArtistsOf(songs[..|songs| - 1]) + Members(songs[|songs| - 1])
  }

  /** A name is a candidate exactly when some song lists it. */
  lemma {:induction false} ArtistsOfMember(songs: seq<seq<string>>, a: string)
    ensures a in ArtistsOf(songs) <==> exists i, j :: 0 <= i < |songs| && 0 <= j < |songs[i]| && songs[i][j] == a
  {
    if songs != [] {
      var n := |songs| - 1;
      var init := songs[..n];
      ArtistsOfMember(init, a);
      if a in ArtistsOf(songs) {
        if a in ArtistsOf(init) {
          var i, j :| 0 <= i < |init| && 0 <= j < |init[i]| && init[i][j] == a;
          assert songs[i][j] == a;
        } else {
          var j :| 0 <= j < |songs[n]| && songs[n][j] == a;
        }
      } else {
        forall i, j | 0 <= i < |songs| && 0 <= j < |songs[i]| ensures songs[i][j] != a {
          if i < n {
            assert init[i][j] == songs[i][j];
          } else {
            assert songs[n][j] in songs[n];
          }
        }
      }
    }
  }

  /** The `for song in data` loop that fills the `artists` set. */
  method CandidateArtists(songs: seq<seq<string>>) returns (artists: set<string>)
    ensures artists == ArtistsOf(songs)
  {
    artists := {};
    for i := 0 to |songs|
      invariant artists == ArtistsOf(songs[..i])
    {
      assert songs[..i + 1][..i] == songs[..i];
      artists := artists + Members(songs[i]);  // artists.update(song["Artists"])
    }
    assert songs[..|songs|] == songs;
  }

  /** `song["Artists"]`: the artist list of one song object of the playlist file. */
  function SongArtists(song: Json): Option<seq<string>>
  {
    if song.JObject? then ListField(song.members, Header[2]) else None
  }

  /** The artist list of every track, in order. */
  function ArtistLists(data: seq<Playlist.Track>): (lists: seq<seq<string>>)
    ensures |lists| == |data|
  {
    if data == [] then [] else [data[0].artists] + ArtistLists(data[1..])
  }

  /**
   * Reading the playlist file the collector scripts write gives back each track's artist
   * list, so the candidates are the artists of the collected tracks.
   */
  lemma {:induction false} PlaylistFileArtists(data: seq<Playlist.Track>)
    ensures ReadJson(SongArtists, JsonArray(TrackJson, data)) == Some(ArtistLists(data))
  {
    PlaylistItemsArtists(data);
  }

  lemma {:induction false} PlaylistItemsArtists(data: seq<Playlist.Track>)
    ensures DecodeAll(SongArtists, JsonArray(TrackJson, data).items) == Some(ArtistLists(data))
  {
    if data != [] {
      var items := JsonArray(TrackJson, data).items;
      assert items[0] == TrackJson(data[0]);
      assert items[1..] == JsonArray(TrackJson, data[1..]).items;
      TrackFields(data[0]);
      PlaylistItemsArtists(data[1..]);
    }
  }

  // ---------------------------------------------------------------------------
  // `random.sample(list(artists), 3)`

  /**
   * `random.sample(population, k)`: `k` distinct members in some order. The random choice is
   * modelled as a nondeterministic one; Python raises ValueError (None here) when the
   * population has fewer than `k` members.
   */
  method Sample(population: set<string>, k: nat) returns (chosen: Option<seq<string>>)
    ensures chosen.None? <==> |population| < k
    ensures chosen.Some? ==> |chosen.value| == k && Distinct(chosen.value)
    ensures chosen.Some? ==> forall a :: a in chosen.value ==> a in population
  {
    if |population| < k {
      return None;
    }
    var rest := population;
    var picked: seq<string> := [];
    while |picked| < k
      invariant |picked| <= k
      invariant rest <= population && |rest| == |population| - |picked|
      invariant Distinct(picked)
      invariant forall a :: a in picked ==> a in population && a !in rest
      decreases k - |picked|
    {
      var a :| a in rest;
      picked := picked + [a];
      rest := rest - {a};
    }
    return Some(picked);
  }

  // ---------------------------------------------------------------------------
  // Finding the artist-info button

  /**
   * What an artist's page offers once opened. `shown[i]` says whether the info button can be
   * located after `i` PAGE_DOWN presses (past the end of `shown` it never can); `dialog` is
   * what the opened info dialog holds, None when the dialog or its data container never
   * appears.
   */
  datatype ArtistPage = ArtistPage(shown: seq<bool>, dialog: Option<Dialog>)

  /**
   * What the locators find in an opened info dialog: the texts of the elements starting with
   * '#', the texts of the all-digit elements (followers first, then monthly listeners), and
   * the texts of the top-city elements, None when reading them raises.
   */
  datatype Dialog = Dialog(rankTexts: seq<string>, countTexts: seq<string>, cities: Option<seq<string>>)

  /** How a button search ends: found after `downs` presses, given up after `downs` presses, or an exception. */
  datatype Search = Found(downs: nat) | GaveUp(downs: nat) | Raised

  function ShownAt(shown: seq<bool>, downs: nat): bool
  {
    downs < |shown| && shown[downs]
  }

  /**
   * A retry loop from attempt `from` up to `limit`: an attempt that locates the button ends
   * it, a failed one presses PAGE_DOWN on `body`. `pressWorks` says whether `body` belongs
   * to the tab being searched; when it does not, the press raises.
   */
  function Attempts(shown: seq<bool>, from: nat, limit: nat, pressWorks: bool): Search
    decreases limit - from
  {
    if from >= limit then GaveUp(from)
    else if ShownAt(shown, from) then Found(from)
    else if !pressWorks then Raised
    else Attempts(shown, from + 1, limit, pressWorks)
  }

  /**
   * The attempts stop at the first one that locates the button, after one press per failed
   * attempt, and give up only when none of them succeeds; with a working press they never raise.
   */
  lemma {:induction false} AttemptsFrom(shown: seq<bool>, from: nat, limit: nat, pressWorks: bool)
    requires from <= limit
    ensures var s := Attempts(shown, from, limit, pressWorks);
            && (s.Found? ==> from <= s.downs < limit && ShownAt(shown, s.downs)
                             && forall j :: from <= j < s.downs ==> !ShownAt(shown, j))
            && (s.GaveUp? ==> s.downs == limit && forall j :: from <= j < limit ==> !ShownAt(shown, j))
            && (pressWorks ==> !s.Raised?)
    decreases limit - from
  {
    if from < limit && !ShownAt(shown, from) && pressWorks {
      AttemptsFrom(shown, from + 1, limit, pressWorks);
    }
  }

  /** The retry loop as intended: `limit` attempts with a PAGE_DOWN on the searched tab after each failure. */
  function BoundedSearch(shown: seq<bool>, limit: nat): Search
  {
    Attempts(shown, 0, limit, true)
  }

  /**
   * The bounded search stops at the first success, after one press per failed attempt, and
   * gives up only when none of the `limit` attempts succeeds; it never raises.
   */
  lemma BoundedSearchSpec(shown: seq<bool>, limit: nat)
    ensures BoundedSearch(shown, limit).Found? ==>
              var k := BoundedSearch(shown, limit).downs;
              k < limit && ShownAt(shown, k) && forall j :: 0 <= j < k ==> !ShownAt(shown, j)
    ensures BoundedSearch(shown, limit).GaveUp? ==>
              BoundedSearch(shown, limit).downs == limit && forall j :: 0 <= j < limit ==> !ShownAt(shown, j)
    ensures !BoundedSearch(shown, limit).Raised?
  {
    AttemptsFrom(shown, 0, limit, true);
  }

  /**
   * With a press that raises, the search never scrolls: it finds the button at the first
   * attempt, raises exactly when that attempt fails, and gives up only when no attempt is made.
   */
  lemma StaleBodySearch(shown: seq<bool>, limit: nat)
    ensures Attempts(shown, 0, limit, false).Found? ==> Attempts(shown, 0, limit, false).downs == 0
    ensures Attempts(shown, 0, limit, false).Raised? <==> 0 < limit && !ShownAt(shown, 0)
    ensures Attempts(shown, 0, limit, false).GaveUp? <==> limit == 0
  {
    AttemptsFrom(shown, 0, limit, false);
  }

  /**
   * The `for _ in range(50)` loop of tests/beginnerTests/test_03.py and test_05.py: try
   * `find_element`, break on success, press PAGE_DOWN on `body` in the bare `except`.
   * `body` is looked up once in the first window, before each artist gets a new tab, so as
   * written (`bodyInTab` false) that press addresses an element of another tab and raises
   * inside the handler; `bodyInTab` true is the loop with `body` looked up in the current tab.
   */
  method SearchInfoButton(shown: seq<bool>, limit: nat, bodyInTab: bool) returns (s: Search)
    ensures s == Attempts(shown, 0, limit, bodyInTab)
  {
    var downs := 0;
    for attempt := 0 to limit
      invariant downs == attempt
      invariant Attempts(shown, attempt, limit, bodyInTab) == Attempts(shown, 0, limit, bodyInTab)
    {
      if ShownAt(shown, downs) {
        return Found(downs);  // find_element succeeds: break
      }
      if !bodyInTab {
        return Raised;        // body.send_keys raises inside the except clause
      }
      downs := downs + 1;     // body.send_keys(Keys.PAGE_DOWN)
    }
    return GaveUp(downs);
  }

  /** What `wait.until(EC.visibility_of_element_located(...))` does: return the element or raise TimeoutException. */
  datatype Wait = Element | Timeout

  function WaitVisible(shown: seq<bool>, downs: nat): Wait
  {
    if ShownAt(shown, downs) then Element else Timeout
  }

  /** The number of tries of projects/beginner/test_03.py. */
  const BeginnerTries: nat := 20

  /**
   * The `while artist_info_button is None and tries_count < 20` loop of
   * projects/beginner/test_03.py as written. `found` stands for `artist_info_button` not being
   * None; a WebElement is truthy, so the `if artist_info_button` test reduces to it, and the
   * `break` is folded into the loop guard. A timeout is re-raised by the enclosing handler.
   * The loop never reaches its PAGE_DOWN branch: `tries_count` stays 0, so the
   * `tries_count == 20` skip cannot happen, and the search is the one with a press that raises.
   */
  method SearchInfoButtonAsWritten(shown: seq<bool>) returns (s: Search, tries: int)
    ensures s == Attempts(shown, 0, BeginnerTries, false)
    ensures tries == 0 && !s.GaveUp?
  {
    var found := false;
    var downs: int := 0;
    tries := 0;
    while !found && tries < BeginnerTries
      invariant tries == 0 && downs == 0
      invariant found ==> ShownAt(shown, 0)
      decreases BeginnerTries - tries, if found then 0 else 1
    {
      match WaitVisible(shown, downs)
      case Timeout =>
        return Raised, tries;
      case Element =>
        found := true;
      if !found {
        downs := downs + 1;  // body.send_keys(Keys.PAGE_DOWN)
        tries := tries + 1;
      }
    }
    if tries == BeginnerTries {
      return GaveUp(BeginnerTries), tries;  // the skip after 20 tries
    }
    return Found(downs), tries;
  }

  // ---------------------------------------------------------------------------
  // Reading the dialog

  /** The ranking stored when no element starting with '#' is found. */
  const NotRanked: string := "N/A"

  /**
   * `world_number`: the first match's text with '#' stripped from both ends, or "N/A" when
   * nothing matched. A ranking never starts or ends with '#'.
   */
  function Ranking(rankTexts: seq<string>): (r: string)
    ensures rankTexts == [] ==> r == NotRanked
    ensures r == [] || (r[0] != '#' && r[|r| - 1] != '#')
  {
    if rankTexts == [] then NotRanked else StripChar(rankTexts[0], '#')
  }

  /** A first match made of '#' runs around a text `x` with no '#' at its ends ranks as exactly `x`. */
  lemma RankingOf(lead: string, x: string, trail: string, rest: seq<string>)
    requires forall i :: 0 <= i < |lead| ==> lead[i] == '#'
    requires forall i :: 0 <= i < |trail| ==> trail[i] == '#'
    requires x == [] || (x[0] != '#' && x[|x| - 1] != '#')
    ensures Ranking([lead + x + trail] + rest) == x
  {
    StripUnwraps(lead, x, trail, ch => ch == '#');
  }

  /** `text.replace(".", "")`: the thousands separators removed from a count. */
  function Count(text: string): (c: string)
    ensures '.' !in c && |c| <= |text|
    ensures '.' !in text ==> c == text
  {
    RemoveChar(text, '.')
  }

  /** A count has no '.' left, keeps every other character as often as before, in order. */
  lemma CountNormalised(a: string, b: string, d: char)
    requires d != '.'
    ensures '.' !in Count(a)
    ensures multiset(Count(a))[d] == multiset(a)[d]
    ensures Count(a + b) == Count(a) + Count(b)
  {
    RemoveCharKeepsOthers(a, '.', d);
    RemoveCharAppend(a, b, '.');
  }

  /** The five-key record `current_artist_info`. */
  datatype Profile = Profile(artist: string, ranking: string, followers: string, monthlyListeners: string, topCities: seq<string>)

  /** The record for `artist` from an opened dialog with at least two count elements. */
  function ProfileOf(artist: string, d: Dialog, cities: seq<string>): Profile
    requires |d.countTexts| >= 2
  {
    Profile(artist, Ranking(d.rankTexts), Count(d.countTexts[0]), Count(d.countTexts[1]), cities)
  }

  /**
   * projects/beginner/test_03.py, dialog stage: every wait raises on a timeout and the
   * handler re-raises, so None means the run ends. `presence_of_all_elements_located` needs
   * at least one element, and `[1]` raises IndexError when there is only one count; fewer
   * than five cities only prints a warning.
   */
  function BeginnerDialog(artist: string, dialog: Option<Dialog>): (r: Option<Profile>)
    ensures r.Some? <==> dialog.Some? && |dialog.value.countTexts| >= 2 &&
                         dialog.value.cities.Some? && dialog.value.cities.value != []
    ensures r.Some? ==> r.value.artist == artist && r.value.topCities == dialog.value.cities.value
  {
    match dialog
    case None => None
    case Some(d) =>
      if |d.countTexts| < 2 then None
      else match d.cities
        case Some(cities) => if cities == [] then None else Some(ProfileOf(artist, d, cities))
        case None => None
  }

  /**
   * tests/beginnerTests/test_03.py, dialog stage: any exception is caught and the artist gets
   * no record (None). An exception while reading the cities leaves TopCities empty and the
   * record is still made.
   */
  function TestDialog(artist: string, dialog: Option<Dialog>): (r: Option<Profile>)
    ensures r.Some? <==> dialog.Some? && |dialog.value.countTexts| >= 2
    ensures r.Some? ==> r.value.artist == artist
  {
    match dialog
    case None => None
    case Some(d) =>
      if |d.countTexts| < 2 then None
      else Some(ProfileOf(artist, d, match d.cities case Some(cities) => cities case None => []))
  }

  // ---------------------------------------------------------------------------
  // One artist, one script

  /**
   * The scripts whose artist loop stores records: projects/beginner/test_03.py as written and
   * with its retry loop working as intended, tests/beginnerTests/test_03.py as written and
   * with its retry loop pressing PAGE_DOWN on the searched tab and an artist whose button
   * never shows skipped.
   */
  datatype Script = BeginnerAsWritten | Beginner | TestAsWritten | Test

  predicate IsBeginner(script: Script)
  {
    script.BeginnerAsWritten? || script.Beginner?
  }

  function SearchLimit(script: Script): nat
  {
    if IsBeginner(script) then BeginnerTries else 50
  }

  /**
   * Whether a failed attempt leads to a PAGE_DOWN and a further attempt. As written it never
   * does: in projects/beginner/test_03.py the failed wait has already raised, and in
   * tests/beginnerTests/test_03.py the press goes to the first window's `body` and raises.
   */
  predicate PressWorks(script: Script)
  {
    script.Beginner? || script.Test?
  }

  /** The button search each script performs. */
  function SearchOf(script: Script, shown: seq<bool>): Search
  {
    Attempts(shown, 0, SearchLimit(script), PressWorks(script))
  }

  /** What processing one artist amounts to: a stored record, nothing, or the end of the run. */
  datatype Step = Stored(profile: Profile) | Skipped | Abort

  /**
   * After the search: an exception ends the run. A search that gives up skips the artist,
   * except in tests/beginnerTests/test_03.py as written, where `artist_info_button` is then
   * unbound (NameError) or still holds the previous artist's button, which belongs to another
   * tab and cannot be clicked; either way the exception ends the run. (As written that search
   * raises at its first failed attempt already, so it never gets to give up.)
   */
  function StepAfter(script: Script, artist: string, dialog: Option<Dialog>, search: Search): Step
  {
    match search
    case Raised => Abort
    case GaveUp(_) => if script.TestAsWritten? then Abort else Skipped
    case Found(_) =>
      if IsBeginner(script) then
        match BeginnerDialog(artist, dialog)
        case Some(p) => Stored(p)
        case None => Abort
      else
        match TestDialog(artist, dialog)
        case Some(p) => Stored(p)
        case None => Skipped
  }

  function StepOf(script: Script, artist: string, page: ArtistPage): Step
  {
    StepAfter(script, artist, page.dialog, SearchOf(script, page.shown))
  }

  /**
   * A stored record carries the searched name, the normalised ranking and counts read from
   * that artist's dialog, and its cities: exactly the ones found in projects/beginner/test_03.py
   * (at least one), the ones found or none at all in tests/beginnerTests/test_03.py.
   */
  lemma StoredProfile(script: Script, artist: string, page: ArtistPage)
    requires StepOf(script, artist, page).Stored?
    ensures var p := StepOf(script, artist, page).profile;
            && page.dialog.Some? && |page.dialog.value.countTexts| >= 2
            && p.artist == artist
            && p.ranking == Ranking(page.dialog.value.rankTexts)
            && p.followers == Count(page.dialog.value.countTexts[0])
            && p.monthlyListeners == Count(page.dialog.value.countTexts[1])
            && (IsBeginner(script) ==> page.dialog.value.cities == Some(p.topCities) && p.topCities != [])
            && (!IsBeginner(script) ==> p.topCities == match page.dialog.value.cities case Some(c) => c case None => [])
  {
  }

  /** In tests/beginnerTests/test_03.py a dialog that fails adds no record and the run goes on. */
  lemma TestDialogFailureSkips(script: Script, artist: string, page: ArtistPage)
    requires script.Test? || script.TestAsWritten?
    requires SearchOf(script, page.shown).Found?
    requires page.dialog.None? || |page.dialog.value.countTexts| < 2
    ensures StepOf(script, artist, page) == Skipped
  {
  }

  /**
   * projects/beginner/test_03.py as written never skips an artist: its search either finds
   * the button without scrolling or ends the run.
   */
  lemma BeginnerNeverSkips(artist: string, page: ArtistPage)
    ensures StepOf(BeginnerAsWritten, artist, page) != Skipped
  {
    StaleBodySearch(page.shown, BeginnerTries);
  }

  /** A button that shows only after one PAGE_DOWN ends the written run; the intended loop scrolls to it. */
  lemma ScrollNeededAborts(artist: string, page: ArtistPage)
    requires page.shown == [false, true]
    ensures StepOf(BeginnerAsWritten, artist, page) == Abort
    ensures SearchOf(Beginner, page.shown) == Found(1)
  {
    assert Attempts(page.shown, 1, BeginnerTries, true) == Found(1);
  }

  /** With the intended loop, an artist whose button never shows in 20 attempts is skipped. */
  lemma BeginnerSkipsHiddenButton(artist: string, page: ArtistPage)
    requires forall j :: 0 <= j < BeginnerTries ==> !ShownAt(page.shown, j)
    ensures SearchOf(Beginner, page.shown) == GaveUp(BeginnerTries)
    ensures StepOf(Beginner, artist, page) == Skipped
  {
    BoundedSearchSpec(page.shown, BeginnerTries);
  }

  /**
   * In tests/beginnerTests/test_03.py as written, an artist whose button is not located at
   * the first attempt ends the run (the PAGE_DOWN raises); pressing on the searched tab
   * instead finds a button that shows after one press.
   */
  lemma StaleBodyAbortsTest(artist: string, page: ArtistPage)
    requires !ShownAt(page.shown, 0)
    ensures StepOf(TestAsWritten, artist, page) == Abort
    ensures ShownAt(page.shown, 1) ==> SearchOf(Test, page.shown) == Found(1)
  {
    StaleBodySearch(page.shown, 50);
    if ShownAt(page.shown, 1) {
      assert Attempts(page.shown, 1, 50, true) == Found(1);
    }
  }

  /** An artist whose button never shows in 50 attempts is skipped by the corrected test_03 loop. */
  lemma TestSkipsHiddenButton(artist: string, page: ArtistPage)
    requires forall j :: 0 <= j < 50 ==> !ShownAt(page.shown, j)
    ensures SearchOf(Test, page.shown) == GaveUp(50)
    ensures StepOf(Test, artist, page) == Skipped
  {
    BoundedSearchSpec(page.shown, 50);
  }

  // ---------------------------------------------------------------------------
  // The artist loop

  /** The records stored so far, and whether an exception has ended the run. */
  datatype Progress = Progress(profiles: seq<Profile>, aborted: bool)

  /** Processing `artists` in order, stopping at the first step that ends the run. */
  function Process(script: Script, artists: seq<string>, site: string -> ArtistPage): (r: Progress)
  {
    if artists == [] then Progress([], false)
    else
      var before := Process(script, artists[..|artists| - 1], site);
      var artist := artists[|artists| - 1];
      if before.aborted then before
      else match StepOf(script, artist, site(artist))
        case Stored(p) => Progress(before.profiles + [p], false)
        case Skipped => before
        case Abort => Progress(before.profiles, true)
  }

  /**
   * The content of the artists JSON file: projects/beginner/test_03.py rewrites it after every
   * stored record, so it holds all the records so far (and is not written before the first);
   * tests/beginnerTests/test_03.py writes it once after the loop, so a run an exception ends
   * leaves it unwritten.
   */
  function SavedFile(script: Script, profiles: seq<Profile>, aborted: bool): Option<seq<Profile>>
  {
    if IsBeginner(script) then (if profiles == [] then None else Some(profiles))
    else if aborted then None
    else Some(profiles)
  }

  /** The `for artist in chosen_artists` loop with its `all_artists_data.append` and JSON dumps. */
  method ProcessArtists(script: Script, chosen: seq<string>, site: string -> ArtistPage)
    returns (profiles: seq<Profile>, aborted: bool, saved: Option<seq<Profile>>)
    ensures Progress(profiles, aborted) == Process(script, chosen, site)
    ensures saved == SavedFile(script, profiles, aborted)
  {
    profiles, aborted, saved := [], false, None;
    for i := 0 to |chosen|
      invariant Process(script, chosen[..i], site) == Progress(profiles, false)
      invariant saved == (if IsBeginner(script) && profiles != [] then Some(profiles) else None)
    {
      assert chosen[..i + 1][..i] == chosen[..i];
      var artist := chosen[i];
      var page := site(artist);
      var search;
      if script.BeginnerAsWritten? {
        var tries;
        search, tries := SearchInfoButtonAsWritten(page.shown);
      } else {
        search := SearchInfoButton(page.shown, SearchLimit(script), PressWorks(script));
      }
      match StepAfter(script, artist, page.dialog, search)
      case Abort =>
        aborted := true;
        assert Process(script, chosen, site) == Progress(profiles, true) by {
          ProcessStaysAborted(script, chosen, i + 1, site);
        }
        return;
      case Skipped =>
      case Stored(p) =>
        profiles := profiles + [p];
        if IsBeginner(script) {
          saved := Some(profiles);
        }
    }
    assert chosen[..|chosen|] == chosen;
    if !IsBeginner(script) {
      saved := Some(profiles);
    }
  }

  /** Once an exception has ended the run, the later artists change nothing. */
  lemma {:induction false} ProcessStaysAborted(script: Script, chosen: seq<string>, n: nat, site: string -> ArtistPage)
    requires n <= |chosen| && Process(script, chosen[..n], site).aborted
    ensures Process(script, chosen, site) == Process(script, chosen[..n], site)
    decreases |chosen| - n
  {
    if n < |chosen| {
      assert chosen[..n + 1][..n] == chosen[..n];
      ProcessStaysAborted(script, chosen, n + 1, site);
    } else {
      assert chosen[..n] == chosen;
    }
  }

  /** Records are only ever appended: the records after any prefix of the artists begin the final ones. */
  lemma {:induction false} ProcessPrefix(script: Script, chosen: seq<string>, n: nat, site: string -> ArtistPage)
    requires n <= |chosen|
    ensures Process(script, chosen[..n], site).profiles <= Process(script, chosen, site).profiles
    decreases |chosen| - n
  {
    if n < |chosen| {
      assert chosen[..n + 1][..n] == chosen[..n];
      ProcessPrefix(script, chosen, n + 1, site);
    } else {
      assert chosen[..n] == chosen;
    }
  }

  /** `xs` is made of some of the elements of `ys`, in their order there. */
  predicate Subsequence(xs: seq<string>, ys: seq<string>)
    decreases |ys|
  {
    xs == [] || (ys != [] && if xs[0] == ys[0] then Subsequence(xs[1..], ys[1..]) else Subsequence(xs, ys[1..]))
  }

  lemma {:induction false} SubsequenceSkip(xs: seq<string>, ys: seq<string>, y: string)
    requires Subsequence(xs, ys)
    ensures Subsequence(xs, ys + [y])
    decreases |ys|
  {
    if xs != [] {
      assert (ys + [y])[0] == ys[0] && (ys + [y])[1..] == ys[1..] + [y];
      if xs[0] == ys[0] {
        SubsequenceSkip(xs[1..], ys[1..], y);
      } else {
        SubsequenceSkip(xs, ys[1..], y);
      }
    }
  }

  lemma {:induction false} SubsequenceTake(xs: seq<string>, ys: seq<string>, y: string)
    requires Subsequence(xs, ys)
    ensures Subsequence(xs + [y], ys + [y])
    decreases |ys|
  {
    if ys == [] {
      assert xs + [y] == [y] && ys + [y] == [y];
      assert Subsequence([y][1..], [y][1..]);
    } else {
      assert (ys + [y])[0] == ys[0] && (ys + [y])[1..] == ys[1..] + [y];
      if xs == [] {
        if ys[0] == y {
          assert Subsequence([y][1..], ys[1..] + [y]);
        } else {
          SubsequenceTake(xs, ys[1..], y);
          assert xs + [y] == [y];
        }
      } else {
        assert (xs + [y])[0] == xs[0] && (xs + [y])[1..] == xs[1..] + [y];
        if xs[0] == ys[0] {
          SubsequenceTake(xs[1..], ys[1..], y);
        } else {
          SubsequenceTake(xs, ys[1..], y);
        }
      }
    }
  }

  /** The artist of every record, in order. */
  function Names(profiles: seq<Profile>): (names: seq<string>)
    ensures |names| == |profiles|
  {
    if profiles == [] then [] else Names(profiles[..|profiles| - 1]) + [profiles[|profiles| - 1].artist]
  }

  /**
   * The records follow the chosen artists: each is named after the artist it was made for,
   * at most one per artist, in the chosen order.
   */
  lemma {:induction false} ProcessInChosenOrder(script: Script, chosen: seq<string>, site: string -> ArtistPage)
    ensures Subsequence(Names(Process(script, chosen, site).profiles), chosen)
  {
    if chosen != [] {
      var init, artist := chosen[..|chosen| - 1], chosen[|chosen| - 1];
      assert chosen == init + [artist];
      var before := Process(script, init, site);
      ProcessInChosenOrder(script, init, site);
      if !before.aborted && StepOf(script, artist, site(artist)).Stored? {
        var p := StepOf(script, artist, site(artist)).profile;
        StoredProfile(script, artist, site(artist));
        assert (before.profiles + [p])[..|before.profiles|] == before.profiles;
        SubsequenceTake(Names(before.profiles), init, artist);
      } else {
        SubsequenceSkip(Names(before.profiles), init, artist);
      }
    }
  }

  /**
   * With a retry loop that gives up quietly and a dialog stage that catches everything, the
   * run of tests/beginnerTests/test_03.py always reaches the final JSON dump.
   */
  lemma {:induction false} TestNeverAborts(chosen: seq<string>, site: string -> ArtistPage)
    ensures !Process(Test, chosen, site).aborted
    ensures SavedFile(Test, Process(Test, chosen, site).profiles, false).Some?
  {
    if chosen != [] {
      TestNeverAborts(chosen[..|chosen| - 1], site);
      BoundedSearchSpec(site(chosen[|chosen| - 1]).shown, 50);
    }
  }

  // ---------------------------------------------------------------------------
  // The artists JSON file

  const ProfileKeys: seq<string> := ["Artist", "Ranking", "Followers", "MonthlyListeners", "TopCities"]

  lemma ProfileKeysDistinct()
    ensures Distinct(ProfileKeys)
  {
    assert ProfileKeys[0][0] == 'A' && ProfileKeys[1][0] == 'R' && ProfileKeys[2][0] == 'F';
    assert ProfileKeys[3][0] == 'M' && ProfileKeys[4][0] == 'T';
  }

  /** The dict `current_artist_info` as a JSON object, TopCities kept as a list. */
  function ProfileJson(p: Profile): Json
  {
    JObject([(ProfileKeys[0], JString(p.artist)), (ProfileKeys[1], JString(p.ranking)),
             (ProfileKeys[2], JString(p.followers)), (ProfileKeys[3], JString(p.monthlyListeners)),
             (ProfileKeys[4], JArray(StringsJson(p.topCities)))])
  }

  /** Reading an artist object back by its keys. */
  function JsonProfile(j: Json): Option<Profile>
  {
    if !j.JObject? then None
    else
      var m := j.members;
      var artist, ranking, followers := StringField(m, ProfileKeys[0]), StringField(m, ProfileKeys[1]), StringField(m, ProfileKeys[2]);
      var listeners, cities := StringField(m, ProfileKeys[3]), ListField(m, ProfileKeys[4]);
      if artist.Some? && ranking.Some? && followers.Some? && listeners.Some? && cities.Some? then
        Some(Profile(artist.value, ranking.value, followers.value, listeners.value, cities.value))
      else None
  }

  /** Each record is an object with exactly the five keys, and reads back as itself. */
  lemma ProfileJsonRoundTrip(p: Profile)
    ensures KeyedBy(ProfileJson(p), ProfileKeys)
    ensures JsonProfile(ProfileJson(p)) == Some(p)
  {
    StringsRoundTrip(p.topCities);
    var j := ProfileJson(p);
    ProfileKeysDistinct();
    assert KeyedBy(j, ProfileKeys);
    KeyedLookup(j, ProfileKeys, 0);
    KeyedLookup(j, ProfileKeys, 1);
    KeyedLookup(j, ProfileKeys, 2);
    KeyedLookup(j, ProfileKeys, 3);
    KeyedLookup(j, ProfileKeys, 4);
  }

  /** The artists file loads back as exactly the records dumped, in order. */
  lemma JsonKeepsProfiles(profiles: seq<Profile>)
    ensures ReadJson(JsonProfile, JsonArray(ProfileJson, profiles)) == Some(profiles)
  {
    forall i | 0 <= i < |profiles| ensures JsonProfile(ProfileJson(profiles[i])) == Some(profiles[i]) {
      ProfileJsonRoundTrip(profiles[i]);
    }
    JsonFileRoundTrip(ProfileJson, JsonProfile, profiles);
  }

  // ---------------------------------------------------------------------------
  // Whole runs

  /** A run either fails at `random.sample` or processes its three chosen artists. */
  datatype ProfileRun =
    | TooFewArtists
    | Ran(chosen: seq<string>, profiles: seq<Profile>, aborted: bool, saved: Option<seq<Profile>>)

  /** The whole script: gather the candidates, choose three, process them in order. */
  method RunProfiles(script: Script, songs: seq<seq<string>>, site: string -> ArtistPage) returns (run: ProfileRun)
    ensures run.TooFewArtists? <==> |ArtistsOf(songs)| < 3
    ensures run.Ran? ==> |run.chosen| == 3 && Distinct(run.chosen)
    ensures run.Ran? ==> forall a :: a in run.chosen ==> a in ArtistsOf(songs)
    ensures run.Ran? ==> Progress(run.profiles, run.aborted) == Process(script, run.chosen, site)
    ensures run.Ran? ==> run.saved == SavedFile(script, run.profiles, run.aborted)
  {
    var artists := CandidateArtists(songs);
    var chosen := Sample(artists, 3);
    if chosen.None? {
      return TooFewArtists;
    }
    var profiles, aborted, saved := ProcessArtists(script, chosen.value, site);
    return Ran(chosen.value, profiles, aborted, saved);
  }

  // ---------------------------------------------------------------------------
  // tests/beginnerTests/test_05.py: the dialog is read and printed, nothing is stored

  /** What test_05 prints for an artist: the values read, or "Dialog not found". */
  datatype Report = ReadOut(ranking: string, followers: string, listeners: string) | DialogNotFound

  /** What a locator call hands back, by element texts: one element (`find_element`) or the list of all matches (`find_elements`). */
  datatype Located = One(text: string) | Many(texts: seq<string>)

  /** The exceptions the dialog stage can run into; the bare `except` catches each of them. */
  datatype Raises = NoElement | TypeError | IndexError

  datatype Outcome<T> = Ok(value: T) | Err(error: Raises)

  /** `find_element`: the first match, or NoSuchElementException when nothing matches. */
  function FindElement(texts: seq<string>): Outcome<Located>
  {
    if texts == [] then Err(NoElement) else Ok(One(texts[0]))
  }

  /** `find_elements`: every match, possibly none. */
  function FindElements(texts: seq<string>): Outcome<Located>
  {
    Ok(Many(texts))
  }

  /** `located[i]`: a single WebElement is not subscriptable, and a list raises IndexError past its end. */
  function Subscript(located: Located, i: nat): Outcome<string>
  {
    match located
    case One(_) => Err(TypeError)
    case Many(texts) => if i < |texts| then Ok(texts[i]) else Err(IndexError)
  }

  /** `data_container.<lookup>(...)[i].text`, the followers (0) or monthly listeners (1) line. */
  function CountAt(lookup: seq<string> -> Outcome<Located>, texts: seq<string>, i: nat): Outcome<string>
  {
    match lookup(texts)
    case Err(e) => Err(e)
    case Ok(located) => Subscript(located, i)
  }

  /**
   * The dialog stage: the dialog and its container, the ranking and the city element are
   * each looked up with `find_element`; the two counts with `lookup` and then indexed.
   * Whichever step raises, the bare `except` prints "Dialog not found".
   */
  function DialogStage(lookup: seq<string> -> Outcome<Located>, dialog: Option<Dialog>): Report
  {
    match dialog
    case None => DialogNotFound
    case Some(d) =>
      var rank := FindElement(d.rankTexts);
      var followers, listeners := CountAt(lookup, d.countTexts, 0), CountAt(lookup, d.countTexts, 1);
      var cities := FindElement(match d.cities case Some(c) => c case None => []);
      if rank.Err? || followers.Err? || listeners.Err? || cities.Err? then DialogNotFound
      else ReadOut(StripChar(rank.value.text, '#'), StripChar(followers.value, '.'), StripChar(listeners.value, '.'))
  }

  /** The stage as written: the counts are looked up with `find_element` and indexed with `[0]` and `[1]`. */
  function DialogReportAsWritten(dialog: Option<Dialog>): Report
  {
    DialogStage(FindElement, dialog)
  }

  /** The stage with the counts looked up with `find_elements`, so the indexing picks the first and second match. */
  function DialogReport(dialog: Option<Dialog>): Report
  {
    DialogStage(FindElements, dialog)
  }

  /** Indexing what `find_element` returns raises, whatever the page holds. */
  lemma SingleElementNotSubscriptable(texts: seq<string>, i: nat)
    ensures CountAt(FindElement, texts, i).Err?
    ensures texts != [] ==> CountAt(FindElement, texts, i) == Err(TypeError)
  {
  }

  /** As written, no dialog is ever read, whatever the page offers. */
  lemma DialogNeverRead(dialog: Option<Dialog>)
    ensures DialogReportAsWritten(dialog) == DialogNotFound
  {
    if dialog.Some? {
      SingleElementNotSubscriptable(dialog.value.countTexts, 0);
    }
  }

  /**
   * The corrected stage reads a dialog exactly when it shows a ranking, two counts and a
   * city, and then prints the first ranking with '#' stripped and the first two counts with
   * '.' stripped from their ends; the written stage reads none of these.
   */
  lemma DialogReadWhenComplete(d: Dialog)
    ensures DialogReport(Some(d)).ReadOut? <==>
              d.rankTexts != [] && |d.countTexts| >= 2 && d.cities.Some? && d.cities.value != []
    ensures DialogReport(Some(d)).ReadOut? ==>
              && DialogReport(Some(d)).ranking == StripChar(d.rankTexts[0], '#')
              && DialogReport(Some(d)).followers == StripChar(d.countTexts[0], '.')
              && DialogReport(Some(d)).listeners == StripChar(d.countTexts[1], '.')
              && DialogReportAsWritten(Some(d)) != DialogReport(Some(d))
  {
    DialogNeverRead(Some(d));
  }

  /** The count lookup of the written (`find_element`) or the corrected (`find_elements`) stage. */
  function CountLookup(corrected: bool): seq<string> -> Outcome<Located>
  {
    if corrected then FindElements else FindElement
  }

  /**
   * The reports printed for `artists` in order, stopping where an exception ends the run. As
   * written the search presses PAGE_DOWN on the first window's `body`, which raises; a search
   * that gives up leaves `artist_info_button` unbound or stale, which raises too. The
   * corrected run presses on the searched tab and skips an artist whose button never shows.
   */
  function Reports(corrected: bool, artists: seq<string>, site: string -> ArtistPage): (r: (seq<Report>, bool))
    ensures |r.0| <= |artists|
  {
    if artists == [] then ([], false)
    else
      var before := Reports(corrected, artists[..|artists| - 1], site);
      var page := site(artists[|artists| - 1]);
      if before.1 then before
      else match Attempts(page.shown, 0, 50, corrected)
        case Found(_) => (before.0 + [DialogStage(CountLookup(corrected), page.dialog)], false)
        case Raised => (before.0, true)
        case GaveUp(_) => if corrected then before else (before.0, true)
  }

  /** The artist loop of test_05: search, open the dialog, print what was read. */
  method ReportArtists(corrected: bool, chosen: seq<string>, site: string -> ArtistPage)
    returns (reports: seq<Report>, aborted: bool)
    ensures (reports, aborted) == Reports(corrected, chosen, site)
  {
    reports, aborted := [], false;
    for i := 0 to |chosen|
      invariant Reports(corrected, chosen[..i], site) == (reports, false)
    {
      assert chosen[..i + 1][..i] == chosen[..i];
      var page := site(chosen[i]);
      var search := SearchInfoButton(page.shown, 50, corrected);
      if search.Found? {
        reports := reports + [DialogStage(CountLookup(corrected), page.dialog)];
      } else if search.Raised? || !corrected {
        aborted := true;
        ReportsStayAborted(corrected, chosen, i + 1, site);
        return;
      }
    }
    assert chosen[..|chosen|] == chosen;
  }

  lemma {:induction false} ReportsStayAborted(corrected: bool, chosen: seq<string>, n: nat, site: string -> ArtistPage)
    requires n <= |chosen| && Reports(corrected, chosen[..n], site).1
    ensures Reports(corrected, chosen, site) == Reports(corrected, chosen[..n], site)
    decreases |chosen| - n
  {
    if n < |chosen| {
      assert chosen[..n + 1][..n] == chosen[..n];
      ReportsStayAborted(corrected, chosen, n + 1, site);
    } else {
      assert chosen[..n] == chosen;
    }
  }

  /** As written, test_05 never prints a single value read from a dialog. */
  lemma {:induction false} ReportsNeverRead(chosen: seq<string>, site: string -> ArtistPage)
    ensures forall k :: 0 <= k < |Reports(false, chosen, site).0| ==> Reports(false, chosen, site).0[k] == DialogNotFound
  {
    if chosen != [] {
      ReportsNeverRead(chosen[..|chosen| - 1], site);
      DialogNeverRead(site(chosen[|chosen| - 1]).dialog);
    }
  }

  /**
   * As written, the run ends exactly when some chosen artist's button is not located at the
   * first attempt, and it reports on every artist before the first such one and on no other.
   */
  lemma {:induction false} ReportsAsWrittenStopAtScroll(chosen: seq<string>, site: string -> ArtistPage)
    ensures var r := Reports(false, chosen, site);
            && (r.1 <==> exists k :: 0 <= k < |chosen| && !ShownAt(site(chosen[k]).shown, 0))
            && (forall k :: 0 <= k < |r.0| ==> ShownAt(site(chosen[k]).shown, 0))
            && (r.1 ==> |r.0| < |chosen| && !ShownAt(site(chosen[|r.0|]).shown, 0))
            && (!r.1 ==> |r.0| == |chosen|)
  {
    if chosen != [] {
      var before := chosen[..|chosen| - 1];
      ReportsAsWrittenStopAtScroll(before, site);
      StaleBodySearch(site(chosen[|chosen| - 1]).shown, 50);
      assert forall k :: 0 <= k < |before| ==> before[k] == chosen[k];
    }
  }

  /** The corrected run reaches every chosen artist. */
  lemma {:induction false} CorrectedReportsNeverAbort(chosen: seq<string>, site: string -> ArtistPage)
    ensures !Reports(true, chosen, site).1
    ensures |Reports(true, chosen, site).0| <= |chosen|
  {
    if chosen != [] {
      CorrectedReportsNeverAbort(chosen[..|chosen| - 1], site);
      BoundedSearchSpec(site(chosen[|chosen| - 1]).shown, 50);
    }
  }

  /** Whether the info button shows at one of test_05's 50 attempts. */
  predicate ButtonShows(shown: seq<bool>)
  {
    exists i :: 0 <= i < 50 && ShownAt(shown, i)
  }

  /** The chosen artists whose button shows within 50 attempts, in order. */
  function Showing(chosen: seq<string>, site: string -> ArtistPage): (s: seq<string>)
    ensures |s| <= |chosen|
    ensures forall a :: a in s <==> a in chosen && ButtonShows(site(a).shown)
  {
    if chosen == [] then []
    else
      var last := chosen[|chosen| - 1];
      assert chosen == chosen[..|chosen| - 1] + [last];
      if ButtonShows(site(last).shown) then Showing(chosen[..|chosen| - 1], site) + [last]
      else Showing(chosen[..|chosen| - 1], site)
  }

  /**
   * The corrected run prints one report per artist whose button shows, in order, each the
   * corrected dialog stage of that artist's page.
   */
  lemma {:induction false} CorrectedReportsPerShownButton(chosen: seq<string>, site: string -> ArtistPage)
    ensures |Reports(true, chosen, site).0| == |Showing(chosen, site)|
    ensures forall k :: 0 <= k < |Reports(true, chosen, site).0| ==>
              Reports(true, chosen, site).0[k] == DialogReport(site(Showing(chosen, site)[k]).dialog)
  {
    if chosen != [] {
      var before := chosen[..|chosen| - 1];
      var page := site(chosen[|chosen| - 1]);
      CorrectedReportsPerShownButton(before, site);
      CorrectedReportsNeverAbort(before, site);
      BoundedSearchSpec(page.shown, 50);
      if BoundedSearch(page.shown, 50).GaveUp? {
        assert !ButtonShows(page.shown);
      } else {
        assert ShownAt(page.shown, BoundedSearch(page.shown, 50).downs);
        assert ButtonShows(page.shown);
      }
    }
  }

  /** A run of test_05: fails at `random.sample`, or prints one report per artist reached. */
  datatype ReportRun = TooFewToReport | Printed(chosen: seq<string>, reports: seq<Report>, aborted: bool)

  /** The whole of tests/beginnerTests/test_05.py, as written or corrected. */
  method RunReports(corrected: bool, songs: seq<seq<string>>, site: string -> ArtistPage) returns (run: ReportRun)
    ensures run.TooFewToReport? <==> |ArtistsOf(songs)| < 3
    ensures run.Printed? ==> |run.chosen| == 3 && Distinct(run.chosen)
    ensures run.Printed? ==> forall a :: a in run.chosen ==> a in ArtistsOf(songs)
    ensures run.Printed? ==> (run.reports, run.aborted) == Reports(corrected, run.chosen, site)
  {
    var artists := CandidateArtists(songs);
    var chosen := Sample(artists, 3);
    if chosen.None? {
      return TooFewToReport;
    }
    var reports, aborted := ReportArtists(corrected, chosen.value, site);
    return Printed(chosen.value, reports, aborted);
  }
}
