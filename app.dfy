/**
 * The state and event handlers of the `App` component in App.tsx (the
 * markup is not modelled).  The saved-library logic is pure list code and is
 * written as functions over `seq<Song>`; the component state is a class whose
 * methods are the handlers.  A handler that awaits a service call is one
 * atomic transition that receives the decoded service response, the clock
 * reading and the URL encoder as parameters.
 */
module App {
  import opened Types
  import Js
  import GeminiService

  // ---------------------------------------------------------------------
  // The saved library
  // ---------------------------------------------------------------------

  /** Saved-song identity: the same title and the same artist; `id` is ignored. */
  predicate SameEntry(a: Song, b: Song) {
    a.title == b.title && a.artist == b.artist
  }

  /** `savedSongs.some(s => s.title === song.title && s.artist === song.artist)` */
  function IsSaved(saved: seq<Song>, song: Song): (b: bool)
    ensures b <==> exists i :: 0 <= i < |saved| && SameEntry(saved[i], song)
  {
    if saved == [] then false else SameEntry(saved[0], song) || IsSaved(saved[1..], song)
  }

  /** `prev.filter(s => !(s.title === song.title && s.artist === song.artist))` */
  function RemoveMatching(saved: seq<Song>, song: Song): (r: seq<Song>)
    ensures |r| <= |saved|
    ensures forall i :: 0 <= i < |r| ==> !SameEntry(r[i], song)
  {
    if saved == [] then []
    else (if SameEntry(saved[0], song) then [] else [saved[0]]) + RemoveMatching(saved[1..], song)
  }

  /** The new `savedSongs` after `handleToggleSave(song)`. */
  function ToggleSave(saved: seq<Song>, song: Song): (r: seq<Song>)
    ensures IsSaved(r, song) == !IsSaved(saved, song)
  {
    if IsSaved(saved, song) then RemoveMatching(saved, song)
    else assert (saved + [song])[|saved|] == song; saved + [song]
  }

  /** No two entries share a (title, artist) pair. */
  predicate NoDuplicateEntries(saved: seq<Song>) {
    forall i, j :: 0 <= i < j < |saved| ==> !SameEntry(saved[i], saved[j])
  }

  /** The number of entries that match `song`. */
  function MatchCount(saved: seq<Song>, song: Song): (n: nat)
    ensures n <= |saved|
    ensures n == 0 <==> !IsSaved(saved, song)
  {
    if saved == [] then 0 else (if SameEntry(saved[0], song) then 1 else 0) + MatchCount(saved[1..], song)
  }

  /**
   * An entry survives removal exactly when it was there and does not match;
   * every copy of a non-matching record survives, and no copy of a matching one.
   */
  lemma {:induction false} RemoveMatchingMembers(saved: seq<Song>, song: Song, x: Song)
    ensures x in RemoveMatching(saved, song) <==> x in saved && !SameEntry(x, song)
    ensures multiset(RemoveMatching(saved, song))[x] == if SameEntry(x, song) then 0 else multiset(saved)[x]
  {
    if saved != [] {
      var tail := saved[1..];
      var head := if SameEntry(saved[0], song) then [] else [saved[0]];
      RemoveMatchingMembers(tail, song, x);
      assert RemoveMatching(saved, song) == head + RemoveMatching(tail, song);
      assert saved == [saved[0]] + tail;
      assert multiset(saved) == multiset([saved[0]]) + multiset(tail);
      assert multiset(RemoveMatching(saved, song)) == multiset(head) + multiset(RemoveMatching(tail, song));
    }
  }

  /** `a` is `b` with some entries deleted: the entries of `a` occur in `b` in the same order. */
  predicate IsSubsequence(a: seq<Song>, b: seq<Song>)
    decreases |b|
  {
    if a == [] then true
    else if b == [] then false
    else (a[0] == b[0] && IsSubsequence(a[1..], b[1..])) || IsSubsequence(a, b[1..])
  }

  /** Removal only deletes entries; it never reorders the ones it keeps. */
  lemma {:induction false} RemoveMatchingIsSubsequence(saved: seq<Song>, song: Song)
    ensures IsSubsequence(RemoveMatching(saved, song), saved)
  {
    if saved != [] {
      RemoveMatchingIsSubsequence(saved[1..], song);
      var rest := RemoveMatching(saved[1..], song);
      if !SameEntry(saved[0], song) {
        assert ([saved[0]] + rest)[1..] == rest;
      } else {
        assert RemoveMatching(saved, song) == [] + rest == rest;
      }
    }
  }

  /** Removal works element by element: it keeps the surviving entries in their original order. */
  lemma {:induction false} RemoveMatchingAppend(a: seq<Song>, b: seq<Song>, song: Song)
    ensures RemoveMatching(a + b, song) == RemoveMatching(a, song) + RemoveMatching(b, song)
  {
    if a != [] {
      var head := if SameEntry(a[0], song) then [] else [a[0]];
      calc {
        RemoveMatching(a + b, song);
      == { assert (a + b)[0] == a[0]; assert (a + b)[1..] == a[1..] + b; }
        head + RemoveMatching(a[1..] + b, song);
      == { RemoveMatchingAppend(a[1..], b, song); }
        head + (RemoveMatching(a[1..], song) + RemoveMatching(b, song));
      ==
        RemoveMatching(a, song) + RemoveMatching(b, song);
      }
    } else {
      assert a + b == b;
    }
  }

  /** Exactly the matching entries are removed. */
  lemma {:induction false} RemoveMatchingLength(saved: seq<Song>, song: Song)
    ensures |RemoveMatching(saved, song)| == |saved| - MatchCount(saved, song)
  {
    if saved != [] {
      RemoveMatchingLength(saved[1..], song);
    }
  }

  /** With nothing to remove, removal is the identity. */
  lemma {:induction false} RemoveMatchingNoMatch(saved: seq<Song>, song: Song)
    requires !IsSaved(saved, song)
    ensures RemoveMatching(saved, song) == saved
  {
    if saved != [] {
      RemoveMatchingNoMatch(saved[1..], song);
    }
  }

  /** Removal depends on the song only through its (title, artist) pair. */
  lemma {:induction false} RemoveMatchingIgnoresId(saved: seq<Song>, a: Song, b: Song)
    requires SameEntry(a, b)
    ensures RemoveMatching(saved, a) == RemoveMatching(saved, b)
  {
    if saved != [] {
      RemoveMatchingIgnoresId(saved[1..], a, b);
    }
  }

  /** Removal keeps a library free of duplicate entries. */
  lemma {:induction false} RemoveMatchingKeepsNoDuplicates(saved: seq<Song>, song: Song)
    requires NoDuplicateEntries(saved)
    ensures NoDuplicateEntries(RemoveMatching(saved, song))
  {
    if saved != [] {
      var tail := saved[1..];
      assert NoDuplicateEntries(tail) by {
        forall i, j | 0 <= i < j < |tail| ensures !SameEntry(tail[i], tail[j]) {
          assert tail[i] == saved[i + 1] && tail[j] == saved[j + 1];
        }
      }
      RemoveMatchingKeepsNoDuplicates(tail, song);
      var rest := RemoveMatching(tail, song);
      if !SameEntry(saved[0], song) {
        var r := [saved[0]] + rest;
        forall i, j | 0 <= i < j < |r| ensures !SameEntry(r[i], r[j]) {
          if i == 0 {
            RemoveMatchingMembers(tail, song, r[j]);
            assert r[j] in tail;
            var k :| 0 <= k < |tail| && tail[k] == r[j];
            assert saved[k + 1] == r[j];
          } else {
            assert r[i] == rest[i - 1] && r[j] == rest[j - 1];
          }
        }
      }
    }
  }

  /** A library without duplicate entries holds at most one match for any song. */
  lemma {:induction false} NoDuplicatesAtMostOneMatch(saved: seq<Song>, song: Song)
    requires NoDuplicateEntries(saved)
    ensures MatchCount(saved, song) <= 1
  {
    if saved != [] {
      var tail := saved[1..];
      assert NoDuplicateEntries(tail) by {
        forall i, j | 0 <= i < j < |tail| ensures !SameEntry(tail[i], tail[j]) {
          assert tail[i] == saved[i + 1] && tail[j] == saved[j + 1];
        }
      }
      NoDuplicatesAtMostOneMatch(tail, song);
    }
  }

  /** Toggling an unsaved song appends it, unchanged, after the untouched entries. */
  lemma ToggleAppendsWhenAbsent(saved: seq<Song>, song: Song)
    requires !IsSaved(saved, song)
    ensures var r := ToggleSave(saved, song);
      |r| == |saved| + 1 && r[..|saved|] == saved && r[|saved|] == song
  {
  }

  /**
   * Toggling a saved song drops every matching entry and keeps the others in
   * their original order: the result is a subsequence of the library holding
   * every copy of each non-matching record and nothing else, and it is also the
   * removal applied to any prefix and suffix separately, put back together.
   */
  lemma ToggleRemovesWhenPresent(saved: seq<Song>, song: Song)
    requires IsSaved(saved, song)
    ensures var r := ToggleSave(saved, song);
      && |r| == |saved| - MatchCount(saved, song) < |saved|
      && (forall x :: x in r <==> x in saved && !SameEntry(x, song))
      && (forall x :: multiset(r)[x] == if SameEntry(x, song) then 0 else multiset(saved)[x])
      && IsSubsequence(r, saved)
      && (forall k :: 0 <= k <= |saved| ==>
            r == RemoveMatching(saved[..k], song) + RemoveMatching(saved[k..], song))
  {
    RemoveMatchingLength(saved, song);
    forall x
      ensures x in ToggleSave(saved, song) <==> x in saved && !SameEntry(x, song)
      ensures multiset(ToggleSave(saved, song))[x] == if SameEntry(x, song) then 0 else multiset(saved)[x]
    {
      RemoveMatchingMembers(saved, song, x);
    }
    RemoveMatchingIsSubsequence(saved, song);
    forall k | 0 <= k <= |saved|
      ensures ToggleSave(saved, song) == RemoveMatching(saved[..k], song) + RemoveMatching(saved[k..], song)
    {
      RemoveMatchingAppend(saved[..k], saved[k..], song);
      assert saved[..k] + saved[k..] == saved;
    }
  }

  /** Two songs with the same title and artist are the same saved entry, whatever their ids. */
  lemma ToggleIgnoresId(saved: seq<Song>, a: Song, b: Song)
    requires SameEntry(a, b)
    ensures IsSaved(saved, a) == IsSaved(saved, b)
    ensures IsSaved(saved, a) ==> ToggleSave(saved, a) == ToggleSave(saved, b)
    ensures !IsSaved(saved, a) ==> ToggleSave(saved, a)[..|saved|] == ToggleSave(saved, b)[..|saved|] == saved
  {
    RemoveMatchingIgnoresId(saved, a, b);
  }

  /** Two toggles from a library that does not hold the song give the library back. */
  lemma ToggleTwiceRestores(saved: seq<Song>, song: Song)
    requires !IsSaved(saved, song)
    ensures ToggleSave(ToggleSave(saved, song), song) == saved
  {
    RemoveMatchingAppend(saved, [song], song);
    RemoveMatchingNoMatch(saved, song);
  }

  /**
   * Two toggles from a library that holds the song drop every match and
   * append the toggled record at the end.
   */
  lemma ToggleTwiceFromSaved(saved: seq<Song>, song: Song)
    requires IsSaved(saved, song)
    ensures ToggleSave(ToggleSave(saved, song), song) == RemoveMatching(saved, song) + [song]
  {
  }

  /**
   * From a library that holds the song, two toggles give the library back
   * exactly when its only match is the song itself, as its last entry.
   */
  lemma ToggleTwiceRestoresWhenLast(saved: seq<Song>, song: Song)
    requires IsSaved(saved, song)
    ensures ToggleSave(ToggleSave(saved, song), song) == saved
        <==> saved[|saved| - 1] == song && !IsSaved(saved[..|saved| - 1], song)
  {
    var n := |saved| - 1;
    if saved[n] == song && !IsSaved(saved[..n], song) {
      assert saved == saved[..n] + [song];
      RemoveMatchingAppend(saved[..n], [song], song);
      RemoveMatchingNoMatch(saved[..n], song);
    }
    if ToggleSave(ToggleSave(saved, song), song) == saved {
      assert saved[..n] == RemoveMatching(saved, song);
    }
  }

  /** A toggle keeps a library free of duplicate entries, and then removes exactly one entry. */
  lemma ToggleKeepsNoDuplicates(saved: seq<Song>, song: Song)
    requires NoDuplicateEntries(saved)
    ensures NoDuplicateEntries(ToggleSave(saved, song))
    ensures IsSaved(saved, song) ==> |ToggleSave(saved, song)| == |saved| - 1
  {
    if IsSaved(saved, song) {
      RemoveMatchingKeepsNoDuplicates(saved, song);
      RemoveMatchingLength(saved, song);
      NoDuplicatesAtMostOneMatch(saved, song);
    } else {
      var r := saved + [song];
      forall i, j | 0 <= i < j < |r| ensures !SameEntry(r[i], r[j]) {
        if j == |saved| { assert r[i] == saved[i]; } else { assert r[i] == saved[i] && r[j] == saved[j]; }
      }
    }
  }

  // ---------------------------------------------------------------------
  // The component state
  // ---------------------------------------------------------------------

  /** The values of all state fields at one moment. */
  datatype Snapshot = Snapshot(
    view: ViewState,
    searchQuery: string,
    searchResults: seq<Song>,
    selectedSong: Option<Song>,
    recommendations: seq<Song>,
    mainMV: Option<Song>,
    savedSongs: seq<Song>,
    isLoading: bool,
    stored: Option<seq<Song>>)

  class Controller {
    var view: ViewState
    var searchQuery: string
    var searchResults: seq<Song>
    var selectedSong: Option<Song>
    var recommendations: seq<Song>
    var mainMV: Option<Song>
    var savedSongs: seq<Song>
    var isLoading: bool
    /** The list last written under the `saved_songs` storage key, if any. */
    var stored: Option<seq<Song>>

    /** The library is persisted after every change. */
    ghost predicate Valid()
      reads this
    {
      stored == Some(savedSongs)
    }

    ghost function State(): Snapshot
      reads this
    {
      Snapshot(view, searchQuery, searchResults, selectedSong, recommendations,
               mainMV, savedSongs, isLoading, stored)
    }

    /** `isSongSaved` */
    function IsSongSaved(song: Song): (b: bool)
      reads this
      ensures b <==> exists i :: 0 <= i < |savedSongs| && SameEntry(savedSongs[i], song)
    {
      IsSaved(savedSongs, song)
    }

    /**
     * The initial state, after the mount effects that load and re-persist the
     * library.  `persisted` is the decoded stored list, or `None` when the key
     * is missing or holds the empty string.
     */
    constructor (persisted: Option<seq<Song>>)
      ensures Valid()
      ensures State() == Snapshot(Main, "", [], None, [], None,
                                  if persisted.Some? then persisted.value else [], false,
                                  Some(if persisted.Some? then persisted.value else []))
    {
      view := Main;
      searchQuery := "";
      searchResults := [];
      selectedSong := None;
      recommendations := [];
      mainMV := None;
      isLoading := false;
      savedSongs := [];
      stored := Some(savedSongs);
      if persisted.Some? {
        savedSongs := persisted.value;
      }
      stored := Some(savedSongs);
    }

    /** `fetchMainMV` */
    method FetchMainMV(response: GeminiService.Response<GeminiService.RawSong>, now: nat, enc: string -> string)
      requires Valid()
      modifies this
      ensures Valid()
      ensures State() == old(State()).(mainMV := Some(GeminiService.GetRandomKoreanMV(response, now, enc)),
                                       isLoading := false)
    {
      isLoading := true;
      var mv := GeminiService.GetRandomKoreanMV(response, now, enc);
      mainMV := Some(mv);
      isLoading := false;
    }

    /** The search box's `onChange`. */
    method EditQuery(text: string)
      requires Valid()
      modifies this
      ensures Valid()
      ensures State() == old(State()).(searchQuery := text)
    {
      searchQuery := text;
    }

    /** `handleSearch`: a blank query does nothing; otherwise the results of searching for it are shown. */
    method HandleSearch(response: GeminiService.Response<seq<GeminiService.RawSong>>, now: nat, enc: string -> string)
      requires Valid()
      modifies this
      ensures Valid()
      ensures Js.Blank(old(searchQuery)) ==> State() == old(State())
      ensures !Js.Blank(old(searchQuery)) ==>
        State() == old(State()).(view := Search,
                                 searchResults := GeminiService.SearchSongs(response, now, enc),
                                 isLoading := false)
    {
      if Js.Trim(searchQuery) == [] {
        return;
      }
      isLoading := true;
      view := Search;
      var results := GeminiService.SearchSongs(response, now, enc);
      searchResults := results;
      isLoading := false;
    }

    /** `handleSelectSong`: show the song's details and its recommendations. */
    method HandleSelectSong(song: Song, response: GeminiService.Response<seq<GeminiService.RawSong>>, now: nat, enc: string -> string)
      requires Valid()
      modifies this
      ensures Valid()
      ensures State() == old(State()).(selectedSong := Some(song),
                                       view := Detail,
                                       recommendations := GeminiService.GetRecommendations(response, now, enc),
                                       isLoading := false)
    {
      selectedSong := Some(song);
      view := Detail;
      isLoading := true;
      var recs := GeminiService.GetRecommendations(response, now, enc);
      recommendations := recs;
      isLoading := false;
    }

    /** `handleToggleSave`, followed by the effect that persists the library. */
    method HandleToggleSave(song: Song)
      requires Valid()
      modifies this
      ensures Valid()
      ensures State() == old(State()).(savedSongs := ToggleSave(old(savedSongs), song),
                                       stored := Some(ToggleSave(old(savedSongs), song)))
      ensures IsSongSaved(song) == !old(IsSongSaved(song))
    {
      savedSongs := ToggleSave(savedSongs, song);
      stored := Some(savedSongs);
    }

    /** `handleRefreshRecommendations`: nothing happens while no song is selected. */
    method HandleRefreshRecommendations(response: GeminiService.Response<seq<GeminiService.RawSong>>, now: nat, enc: string -> string)
      requires Valid()
      modifies this
      ensures Valid()
      ensures old(selectedSong).None? ==> State() == old(State())
      ensures old(selectedSong).Some? ==>
        State() == old(State()).(recommendations := GeminiService.GetRecommendations(response, now, enc),
                                 isLoading := false)
    {
      if selectedSong.None? {
        return;
      }
      isLoading := true;
      var recs := GeminiService.GetRecommendations(response, now, enc);
      recommendations := recs;
      isLoading := false;
    }

    /** The logo: back to the home view with an empty search box. */
    method ClickLogo()
      requires Valid()
      modifies this
      ensures Valid()
      ensures State() == old(State()).(view := Main, searchQuery := "")
    {
      view := Main;
      searchQuery := "";
    }

    /** The "My Library" button. */
    method ClickLibrary()
      requires Valid()
      modifies this
      ensures Valid()
      ensures State() == old(State()).(view := Saved)
    {
      view := Saved;
    }

    /** The back button of the search view. */
    method ClickBack()
      requires Valid()
      modifies this
      ensures Valid()
      ensures State() == old(State()).(view := Main)
    {
      view := Main;
    }
  }

  /**
   * Start with an empty library, load the featured pick, search, open the
   * first result and save it twice over: the handlers' contracts alone give
   * the state after each step.
   */
  method SearchSelectSaveScenario(
    featured: GeminiService.Response<GeminiService.RawSong>,
    query: string,
    found: GeminiService.Response<seq<GeminiService.RawSong>>,
    similar: GeminiService.Response<seq<GeminiService.RawSong>>,
    now: nat, enc: string -> string)
    returns (savedOnce: seq<Song>, savedTwice: seq<Song>, shown: ViewState)
    requires !Js.Blank(query)
    requires found.Decoded? && |found.value| > 0
    ensures |savedOnce| == 1 && SameEntry(savedOnce[0], GeminiService.SearchSongs(found, now, enc)[0])
    ensures savedTwice == []
    ensures shown == Detail
  {
    var app := new Controller(None);
    app.FetchMainMV(featured, now, enc);
    assert app.view == Main && app.mainMV.Some?;
    app.EditQuery(query);
    app.HandleSearch(found, now, enc);
    assert app.view == Search && |app.searchResults| == |found.value|;
    var first := app.searchResults[0];
    app.HandleSelectSong(first, similar, now, enc);
    app.HandleToggleSave(first);
    savedOnce := app.savedSongs;
    app.HandleToggleSave(first);
    savedTwice := app.savedSongs;
    shown := app.view;
    ToggleTwiceRestores([], first);
  }
}
