/**
 * The string operations the scraping scripts apply to element texts:
 * Python's `str.split(sep)`, `sep.join(parts)`, `str.strip()` / `str.strip(chars)`
 * and `str.replace(old, "")`, on strings as sequences of characters.
 */
module Text {

  /** Python's `str.isspace` for one character (the characters `str.strip()` removes). */
  predicate IsSpace(c: char)
  {
    ('\U{0009}' <= c <= '\U{000D}') || ('\U{001C}' <= c <= '\U{001F}') || c == ' ' ||
    c == '\U{0085}' || c == '\U{00A0}' || c == '\U{1680}' ||
    ('\U{2000}' <= c <= '\U{200A}') || c == '\U{2028}' || c == '\U{2029}' ||
    c == '\U{202F}' || c == '\U{205F}' || c == '\U{3000}'
  }

  // ---------------------------------------------------------------------------
  // str.strip(chars)

  /** The index where the run of characters satisfying `p` that starts at `i` ends (`str.lstrip`'s cut). */
  function LeadEnd(s: string, p: char -> bool, i: nat): (k: nat)
    requires i <= |s|
    ensures i <= k <= |s|
    ensures k == |s| || !p(s[k])
    decreases |s| - i
  {
    if i < |s| && p(s[i]) then LeadEnd(s, p, i + 1) else i
  }

  /** Everything LeadEnd skips satisfies `p`. */
  lemma {:induction false} LeadRun(s: string, p: char -> bool, i: nat)
    requires i <= |s|
    ensures forall m :: i <= m < LeadEnd(s, p, i) ==> p(s[m])
    decreases |s| - i
  {
    if i < |s| && p(s[i]) {
      LeadRun(s, p, i + 1);
    }
  }

  /**
   * The index where the run of characters satisfying `p` that ends at `j` starts, not going
   * below `lo` (`str.rstrip`'s cut, applied to what `str.lstrip` left).
   */
  function TrailStart(s: string, p: char -> bool, lo: nat, j: nat): (k: nat)
    requires lo <= j <= |s|
    ensures lo <= k <= j
    ensures k == lo || !p(s[k - 1])
    decreases j
  {
    if lo < j && p(s[j - 1]) then TrailStart(s, p, lo, j - 1) else j
  }

  /** Everything TrailStart skips satisfies `p`. */
  lemma {:induction false} TrailRun(s: string, p: char -> bool, lo: nat, j: nat)
    requires lo <= j <= |s|
    ensures forall m :: TrailStart(s, p, lo, j) <= m < j ==> p(s[m])
    decreases j
  {
    if lo < j && p(s[j - 1]) {
      TrailRun(s, p, lo, j - 1);
    }
  }

  /** True when neither end of `s` carries a character satisfying `p`. */
  predicate Stripped(s: string, p: char -> bool)
  {
    s == [] || (!p(s[0]) && !p(s[|s| - 1]))
  }

  /** True when every character of `s` satisfies `p`. */
  predicate All(s: string, p: char -> bool)
  {
    forall i :: 0 <= i < |s| ==> p(s[i])
  }

  /** Python's `s.strip(chars)` where `p` says which characters are in `chars`. */
  function Strip(s: string, p: char -> bool): (r: string)
    ensures Stripped(r, p)
  {
    var a := LeadEnd(s, p, 0);
    s[a..TrailStart(s, p, a, |s|)]
  }

  /**
   * Strip is characterised by its result: `s` is a strippable run, then the result, then
   * another strippable run, and the result has nothing left to strip at its ends.
   */
  lemma {:induction false} StripShape(s: string, p: char -> bool)
    ensures LeadEnd(s, p, 0) + |Strip(s, p)| <= |s|
    ensures s == s[..LeadEnd(s, p, 0)] + Strip(s, p) + s[LeadEnd(s, p, 0) + |Strip(s, p)|..]
    ensures All(s[..LeadEnd(s, p, 0)], p) && All(s[LeadEnd(s, p, 0) + |Strip(s, p)|..], p)
  {
    var a := LeadEnd(s, p, 0);
    var b := TrailStart(s, p, a, |s|);
    assert Strip(s, p) == s[a..b];
    assert s == s[..a] + s[a..b] + s[b..];
    assert All(s[..a], p) by {
      LeadRun(s, p, 0);
      forall i | 0 <= i < a ensures p(s[..a][i]) {
        assert s[..a][i] == s[i];
      }
    }
    assert All(s[b..], p) by {
      TrailRun(s, p, a, |s|);
      forall i | 0 <= i < |s| - b ensures p(s[b..][i]) {
        assert s[b..][i] == s[b + i];
      }
    }
  }

  /** The partner of StripShape: wrapping a stripped string in strippable runs and stripping gives it back. */
  lemma {:induction false} StripUnwraps(lead: string, x: string, trail: string, p: char -> bool)
    requires All(lead, p) && All(trail, p) && Stripped(x, p)
    ensures Strip(lead + x + trail, p) == x
  {
    var s := lead + x + trail;
    if x == [] {
      forall m | 0 <= m < |s| ensures p(s[m]) {
        if m < |lead| {
          assert s[m] == lead[m];
        } else {
          assert s[m] == trail[m - |lead|];
        }
      }
      LeadEndAt(s, p, 0, |s|);
      assert TrailStart(s, p, |s|, |s|) == |s|;
    } else {
      var a, b := |lead|, |lead| + |x|;
      forall m | 0 <= m < a ensures p(s[m]) {
        assert s[m] == lead[m];
      }
      assert s[a] == x[0];
      LeadEndAt(s, p, 0, a);
      forall m | b <= m < |s| ensures p(s[m]) {
        assert s[m] == trail[m - b];
      }
      assert s[b - 1] == x[|x| - 1];
      TrailStartAt(s, p, a, |s|, b);
      assert s[a..b] == x;
    }
  }

  /** LeadEnd stops at the first index from `i` on that fails `p`. */
  lemma {:induction false} LeadEndAt(s: string, p: char -> bool, i: nat, m: nat)
    requires i <= m <= |s|
    requires forall k :: i <= k < m ==> p(s[k])
    requires m == |s| || !p(s[m])
    ensures LeadEnd(s, p, i) == m
    decreases m - i
  {
    if i < m {
      LeadEndAt(s, p, i + 1, m);
    }
  }

  /** TrailStart stops at the last index down to `lo` whose left neighbour fails `p`. */
  lemma {:induction false} TrailStartAt(s: string, p: char -> bool, lo: nat, j: nat, m: nat)
    requires lo <= m <= j <= |s|
    requires forall k :: m <= k < j ==> p(s[k])
    requires m == lo || !p(s[m - 1])
    ensures TrailStart(s, p, lo, j) == m
    decreases j - m
  {
    if m < j {
      TrailStartAt(s, p, lo, j - 1, m);
    }
  }

  /** Stripping never introduces a character. */
  lemma {:induction false} StripKeepsOut(s: string, p: char -> bool, c: char)
    requires c !in s
    ensures c !in Strip(s, p)
  {
    var a := LeadEnd(s, p, 0);
    var r := Strip(s, p);
    forall k | 0 <= k < |r| ensures r[k] != c {
      assert r[k] == s[a + k];
    }
  }

  /** A strippable character in front does not change the result. */
  lemma {:induction false} StripLeading(c: char, s: string, p: char -> bool)
    requires p(c)
    ensures Strip([c] + s, p) == Strip(s, p)
  {
    var t := [c] + s;
    var a := LeadEnd(s, p, 0);
    var b := TrailStart(s, p, a, |s|);
    assert LeadEnd(t, p, 0) == LeadEnd(t, p, 1);
    LeadEndShift(c, s, p, 0);
    TrailStartShift(c, s, p, a, |s|);
    assert t[a + 1..b + 1] == s[a..b];
  }

  /** Moving the scan one place right past a new first character. */
  lemma {:induction false} LeadEndShift(c: char, s: string, p: char -> bool, i: nat)
    requires i <= |s|
    ensures LeadEnd([c] + s, p, i + 1) == LeadEnd(s, p, i) + 1
    decreases |s| - i
  {
    if i < |s| {
      assert ([c] + s)[i + 1] == s[i];
      if p(s[i]) {
        LeadEndShift(c, s, p, i + 1);
      }
    }
  }

  lemma {:induction false} TrailStartShift(c: char, s: string, p: char -> bool, lo: nat, j: nat)
    requires lo <= j <= |s|
    ensures TrailStart([c] + s, p, lo + 1, j + 1) == TrailStart(s, p, lo, j) + 1
    decreases j
  {
    if lo < j {
      assert ([c] + s)[j] == s[j - 1];
      if p(s[j - 1]) {
        TrailStartShift(c, s, p, lo, j - 1);
      }
    }
  }

  /** Python's `s.strip()`: whitespace removed from both ends. */
  function Trim(s: string): (r: string)
  {
    Strip(s, IsSpace)
  }

  /** Python's `s.strip(c)` for a single character `c`, e.g. `strip("#")`. */
  function StripChar(s: string, c: char): (r: string)
  {
    Strip(s, ch => ch == c)
  }

  /** Stripping twice changes nothing more than stripping once. */
  lemma {:induction false} StripIdempotent(s: string, p: char -> bool)
    ensures Strip(Strip(s, p), p) == Strip(s, p)
  {
    var x := Strip(s, p);
    StripUnwraps([], x, [], p);
    assert [] + x + [] == x;
  }

  // ---------------------------------------------------------------------------
  // str.replace(c, "")

  /** Python's `s.replace(c, "")`: every occurrence of `c` deleted. */
  function RemoveChar(s: string, c: char): (r: string)
    ensures c !in r
    ensures |r| <= |s|
    ensures c !in s ==> r == s
  {
    if s == [] then []
    else if s[0] == c then RemoveChar(s[1..], c)
    else [s[0]] + RemoveChar(s[1..], c)
  }

  /** Removing distributes over concatenation, so only the occurrences of `c` are affected. */
  lemma {:induction false} RemoveCharAppend(a: string, b: string, c: char)
    ensures RemoveChar(a + b, c) == RemoveChar(a, c) + RemoveChar(b, c)
  {
    if a == [] {
      assert a + b == b;
    } else {
      assert (a + b)[1..] == a[1..] + b;
      RemoveCharAppend(a[1..], b, c);
    }
  }

  /** What remains is exactly `s` with the `c`s taken out: the other characters keep their count. */
  lemma {:induction false} RemoveCharKeepsOthers(s: string, c: char, d: char)
    requires d != c
    ensures multiset(RemoveChar(s, c))[d] == multiset(s)[d]
    ensures multiset(RemoveChar(s, c))[c] == 0
  {
    if s != [] {
      RemoveCharKeepsOthers(s[1..], c, d);
      assert s == [s[0]] + s[1..];
      assert multiset(s) == multiset([s[0]]) + multiset(s[1..]);
    }
  }

  // ---------------------------------------------------------------------------
  // str.split(sep) and sep.join(parts)

  /** Python's `s.split(sep)` for a one-character separator: always at least one part. */
  function Split(s: string, sep: char): (parts: seq<string>)
    ensures |parts| >= 1
  {
    if s == [] then [[]]
    else if s[0] == sep then [[]] + Split(s[1..], sep)
    else
      var rest := Split(s[1..], sep);
      [[s[0]] + rest[0]] + rest[1..]
  }

  /** No part of a split holds the separator. */
  lemma {:induction false} SplitPartsFree(s: string, sep: char, i: nat)
    requires i < |Split(s, sep)|
    ensures sep !in Split(s, sep)[i]
  {
    if s != [] {
      var rest := Split(s[1..], sep);
      if s[0] == sep {
        if i > 0 {
          SplitPartsFree(s[1..], sep, i - 1);
        }
      } else if i == 0 {
        SplitPartsFree(s[1..], sep, 0);
      } else {
        SplitPartsFree(s[1..], sep, i);
      }
    }
  }

  /** Python's `sep.join(parts)`. */
  function Join(parts: seq<string>, sep: string): (s: string)
  {
    if parts == [] then []
    else if |parts| == 1 then parts[0]
    else parts[0] + sep + Join(parts[1..], sep)
  }

  /** Joining the parts of a split with the same separator gives back the string. */
  lemma {:induction false} JoinSplit(s: string, sep: char)
    ensures Join(Split(s, sep), [sep]) == s
  {
    if s == [] {
    } else if s[0] == sep {
      JoinSplit(s[1..], sep);
      assert s == [] + [sep] + s[1..];
    } else {
      var rest := Split(s[1..], sep);
      JoinSplit(s[1..], sep);
      var parts := [[s[0]] + rest[0]] + rest[1..];
      assert parts[1..] == rest[1..];
      if |rest| == 1 {
        assert s == [s[0]] + rest[0];
      } else {
        assert Join(rest, [sep]) == rest[0] + [sep] + Join(rest[1..], [sep]);
        assert s == [s[0]] + s[1..];
      }
    }
  }

  /** Splitting a join of separator-free parts gives back the parts. */
  lemma {:induction false} SplitJoin(parts: seq<string>, sep: char)
    requires |parts| >= 1
    requires forall i :: 0 <= i < |parts| ==> sep !in parts[i]
    ensures Split(Join(parts, [sep]), sep) == parts
    decreases |parts|, |parts[0]|
  {
    if parts[0] == [] {
      if |parts| == 1 {
      } else {
        SplitJoin(parts[1..], sep);
        assert Join(parts, [sep]) == [sep] + Join(parts[1..], [sep]);
      }
    } else {
      var head := parts[0];
      var parts' := [head[1..]] + parts[1..];
      assert parts'[1..] == parts[1..];
      assert forall i :: 0 <= i < |parts'| ==> sep !in parts'[i] by {
        forall i | 0 <= i < |parts'| ensures sep !in parts'[i] {
          if i == 0 {
            assert head == [head[0]] + head[1..];
          } else {
            assert parts'[i] == parts[i];
          }
        }
      }
      SplitJoin(parts', sep);
      var s := Join(parts, [sep]);
      assert head == [head[0]] + head[1..];
      assert head[0] != sep;
      if |parts| == 1 {
        assert s == [head[0]] + Join(parts', [sep]);
      } else {
        assert s == [head[0]] + Join(parts', [sep]);
      }
      assert s[0] == head[0] && s[1..] == Join(parts', [sep]);
    }
  }

  // ---------------------------------------------------------------------------
  // The artist list of a track row: `[a.strip() for a in text.split(',')]`

  /** The artists text of a row split on ',' with each part whitespace-stripped. */
  function SplitArtists(text: string): (artists: seq<string>)
  {
    TrimAll(Split(text, ','))
  }

  /** Every part whitespace-stripped, in order. */
  function TrimAll(parts: seq<string>): (r: seq<string>)
    ensures |r| == |parts|
  {
    if parts == [] then [] else [Trim(parts[0])] + TrimAll(parts[1..])
  }

  lemma {:induction false} TrimAllAt(parts: seq<string>, i: nat)
    requires i < |parts|
    ensures TrimAll(parts)[i] == Trim(parts[i])
  {
    if i > 0 {
      TrimAllAt(parts[1..], i - 1);
    }
  }

  lemma {:induction false} TrimAllAppend(a: seq<string>, b: seq<string>)
    ensures TrimAll(a + b) == TrimAll(a) + TrimAll(b)
  {
    if a == [] {
      assert a + b == b;
    } else {
      assert (a + b)[1..] == a[1..] + b;
      TrimAllAppend(a[1..], b);
    }
  }

  /** `", ".join(artists)`, the flattening used for the CSV "Artists" cell. */
  function JoinArtists(artists: seq<string>): (cell: string)
  {
    Join(artists, ", ")
  }

  /** An artist list as SplitArtists produces it: every name comma-free and stripped. */
  predicate WellFormedArtists(artists: seq<string>)
  {
    |artists| >= 1 &&
    forall i :: 0 <= i < |artists| ==> ',' !in artists[i] && Stripped(artists[i], IsSpace)
  }

  /** Every list SplitArtists returns is well-formed. */
  lemma {:induction false} SplitArtistsWellFormed(text: string)
    ensures WellFormedArtists(SplitArtists(text))
  {
    var parts := Split(text, ',');
    var artists := SplitArtists(text);
    forall i | 0 <= i < |artists|
      ensures ',' !in artists[i] && Stripped(artists[i], IsSpace)
    {
      TrimAllAt(parts, i);
      SplitPartsFree(text, ',', i);
      StripKeepsOut(parts[i], IsSpace, ',');
    }
  }

  /** Splitting at a separator splits the two sides independently. */
  lemma {:induction false} SplitAt(a: string, b: string, sep: char)
    ensures Split(a + [sep] + b, sep) == Split(a, sep) + Split(b, sep)
  {
    if a == [] {
      assert a + [sep] + b == [sep] + b;
      assert ([sep] + b)[1..] == b;
    } else {
      var s := a + [sep] + b;
      assert s[1..] == a[1..] + [sep] + b;
      SplitAt(a[1..], b, sep);
    }
  }

  /** A leading whitespace character does not change the artist list. */
  lemma {:induction false} SplitArtistsLeadingSpace(c: char, s: string)
    requires IsSpace(c) && c != ','
    ensures SplitArtists([c] + s) == SplitArtists(s)
  {
    assert ([c] + s)[1..] == s;
    var parts := Split(s, ',');
    var parts' := Split([c] + s, ',');
    assert parts' == [[c] + parts[0]] + parts[1..];
    StripLeading(c, parts[0], IsSpace);
    assert parts'[1..] == parts[1..];
    assert TrimAll(parts') == [Trim(parts'[0])] + TrimAll(parts'[1..]);
    assert TrimAll(parts) == [Trim(parts[0])] + TrimAll(parts[1..]);
  }

  lemma {:induction false} SplitArtistsAt(a: string, b: string)
    ensures SplitArtists(a + [','] + b) == SplitArtists(a) + SplitArtists(b)
  {
    SplitAt(a, b, ',');
    TrimAllAppend(Split(a, ','), Split(b, ','));
  }

  lemma {:induction false} SingleArtist(a: string)
    requires ',' !in a && Stripped(a, IsSpace)
    ensures SplitArtists(a) == [a]
  {
    SplitNoSep(a, ',');
    StrippedFixed(a, IsSpace);
    assert TrimAll([a]) == [Trim(a)] + TrimAll([]);
  }

  lemma {:induction false} SplitNoSep(a: string, sep: char)
    requires sep !in a
    ensures Split(a, sep) == [a]
  {
    SplitJoin([a], sep);
  }

  lemma {:induction false} StrippedFixed(a: string, p: char -> bool)
    requires Stripped(a, p)
    ensures Strip(a, p) == a
  {
    StripUnwraps([], a, [], p);
    assert [] + a + [] == a;
  }

  /**
   * Round trip of the CSV flattening: re-reading a flattened artists cell with the
   * extraction rule (split on ',', strip each part) gives back the original list.
   */
  lemma {:induction false} SplitJoinArtists(artists: seq<string>)
    requires WellFormedArtists(artists)
    ensures SplitArtists(JoinArtists(artists)) == artists
  {
    var a0, rest := artists[0], artists[1..];
    assert artists == [a0] + rest;
    SingleArtist(a0);
    if rest == [] {
      assert JoinArtists(artists) == a0;
    } else {
      assert WellFormedArtists(rest) by {
        forall i | 0 <= i < |rest| ensures ',' !in rest[i] && Stripped(rest[i], IsSpace) {
          assert rest[i] == artists[i + 1];
        }
      }
      SplitJoinArtists(rest);
      JoinArtistsCons(a0, rest);
    }
  }

  lemma {:induction false} JoinArtistsCons(a0: string, rest: seq<string>)
    requires rest != []
    requires SplitArtists(a0) == [a0]
    requires SplitArtists(JoinArtists(rest)) == rest
    ensures SplitArtists(JoinArtists([a0] + rest)) == [a0] + rest
  {
    var j := JoinArtists(rest);
    JoinArtistsShape(a0, rest);
    SplitArtistsAt(a0, [' '] + j);
    SplitArtistsLeadingSpace(' ', j);
  }

  lemma {:induction false} JoinArtistsShape(a0: string, rest: seq<string>)
    requires rest != []
    ensures JoinArtists([a0] + rest) == a0 + [','] + ([' '] + JoinArtists(rest))
  {
    assert ([a0] + rest)[1..] == rest;
    assert JoinArtists([a0] + rest) == a0 + ", " + JoinArtists(rest);
  }

  /** Re-splitting the CSV cell of any extracted artist list gives the list back. */
  lemma {:induction false} FlattenedArtistsReparse(text: string)
    ensures SplitArtists(JoinArtists(SplitArtists(text))) == SplitArtists(text)
  {
    SplitArtistsWellFormed(text);
    SplitJoinArtists(SplitArtists(text));
  }
}
