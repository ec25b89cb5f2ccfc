/**
 * The normalisation half of geminiService.ts.  Each of the three services
 * asks the remote model for JSON, decodes it, and fills in the display fields
 * the model may leave out.  The remote call and the decoding are outside this
 * model: a service receives the decoded response, or `Failed` when the call,
 * the decoding or the mapping threw.  `now` stands for `Date.now()` and `enc`
 * for `encodeURIComponent`.
 */
module GeminiService {
  import opened Types
  import Js

  /** One decoded response object: every property may be absent. */
  datatype RawSong = RawSong(
    id: Option<string>,
    title: Option<string>,
    artist: Option<string>,
    album: Option<string>,
    year: Option<string>,
    duration: Option<string>,
    thumbnail: Option<string>,
    youtubeId: Option<string>,
    youtubeMusicUrl: Option<string>)

  /** What the `try` block produced: the decoded value, or an exception. */
  datatype Response<T> = Decoded(value: T) | Failed

  const SearchKind := "search"
  const RecommendationKind := "rec"
  const FallbackVideoId := "f6YDKF0LVWw"

  /** The JSON object a `Song` decodes back to. */
  function ToRaw(s: Song): RawSong {
    RawSong(Some(s.id), s.title, s.artist, s.album, s.year, s.duration,
            Some(s.thumbnail), s.youtubeId, Some(s.youtubeMusicUrl))
  }

  // ---------------------------------------------------------------------
  // The string templates
  // ---------------------------------------------------------------------

  /** `${kind}-${idx}-${Date.now()}` */
  function ListId(kind: string, idx: nat, now: nat): (r: string)
    ensures |r| > |kind| + 1 && r[..|kind| + 1] == kind + "-"
    ensures var d := |Js.Decimal(idx)|;
      |kind| + d + 2 < |r| && Js.AllDigits(r[|kind| + 1..|kind| + 1 + d]) && r[|kind| + 1 + d] == '-'
      && Js.ParseDecimal(r[|kind| + 1..|kind| + 1 + d]) == idx
    ensures var e := |Js.Decimal(now)|;
      e <= |r| && Js.AllDigits(r[|r| - e..]) && Js.ParseDecimal(r[|r| - e..]) == now
  {
    var r := kind + "-" + Js.Decimal(idx) + "-" + Js.Decimal(now);
    assert r[|kind| + 1..|kind| + 1 + |Js.Decimal(idx)|] == Js.Decimal(idx);
    assert r[|r| - |Js.Decimal(now)|..] == Js.Decimal(now);
    Js.ParseDecimalOfDecimal(idx);
    Js.ParseDecimalOfDecimal(now);
    r
  }

  /** `rand-${Date.now()}` */
  function FeaturedId(now: nat): (r: string)
    ensures |r| > 5 && r[..5] == "rand-"
    ensures Js.AllDigits(r[5..]) && Js.ParseDecimal(r[5..]) == now
  {
    var r := "rand-" + Js.Decimal(now);
    assert r[5..] == Js.Decimal(now);
    Js.ParseDecimalOfDecimal(now);
    r
  }

  /** A placeholder image seeded by the (encoded) title. */
  function SeededThumbnail(title: Option<string>, enc: string -> string): (r: string)
    ensures var p := "https://picsum.photos/seed/"; var q := "/300/300";
      |r| >= |p| + |q| && r[..|p|] == p && r[|r| - |q|..] == q
      && r[|p|..|r| - |q|] == enc(Js.Text(title))
  {
    var p := "https://picsum.photos/seed/";
    var q := "/300/300";
    var r := p + enc(Js.Text(title)) + q;
    assert r[|p|..|r| - |q|] == enc(Js.Text(title));
    r
  }

  /** The YouTube thumbnail of a video id, interpolated without encoding. */
  function VideoThumbnail(youtubeId: Option<string>): (r: string)
    ensures var p := "https://img.youtube.com/vi/"; var q := "/maxresdefault.jpg";
      |r| >= |p| + |q| && r[..|p|] == p && r[|r| - |q|..] == q
      && (youtubeId.Some? ==> r[|p|..|r| - |q|] == youtubeId.value)
      && (youtubeId.None? ==> r[|p|..|r| - |q|] == "undefined")
  {
    var p := "https://img.youtube.com/vi/";
    var q := "/maxresdefault.jpg";
    var r := p + Js.Text(youtubeId) + q;
    assert r[|p|..|r| - |q|] == Js.Text(youtubeId);
    r
  }

  /** A YouTube Music search for `title + ' ' + artist`. */
  function MusicSearchUrl(title: Option<string>, artist: Option<string>, enc: string -> string): (r: string)
    ensures var p := "https://music.youtube.com/search?q=";
      |r| >= |p| && r[..|p|] == p && r[|p|..] == enc(Js.Text(title) + " " + Js.Text(artist))
  {
    var p := "https://music.youtube.com/search?q=";
    var r := p + enc(Js.Text(title) + " " + Js.Text(artist));
    assert r[|p|..] == enc(Js.Text(title) + " " + Js.Text(artist));
    r
  }

  /** The fields the spread copies unchanged from the response object. */
  predicate CopiesThrough(s: RawSong, r: Song) {
    && r.title == s.title && r.artist == s.artist && r.album == s.album
    && r.year == s.year && r.duration == s.duration && r.youtubeId == s.youtubeId
  }

  /** Every field the view layer needs to render a song is non-empty. */
  predicate Displayable(r: Song) {
    r.id != "" && r.thumbnail != "" && r.youtubeMusicUrl != ""
  }

  // ---------------------------------------------------------------------
  // Normalisation
  // ---------------------------------------------------------------------

  /** The body of the `map` in `searchSongs` and `getRecommendations`, for element `idx`. */
  function NormaliseListItem(kind: string, s: RawSong, idx: nat, now: nat, enc: string -> string): (r: Song)
    ensures CopiesThrough(s, r)
    ensures Js.Truthy(s.id) ==> r.id == s.id.value
    ensures !Js.Truthy(s.id) ==> r.id == ListId(kind, idx, now)
    ensures Js.Truthy(s.thumbnail) ==> r.thumbnail == s.thumbnail.value
    ensures !Js.Truthy(s.thumbnail) ==> r.thumbnail == SeededThumbnail(s.title, enc)
    ensures Js.Truthy(s.youtubeMusicUrl) ==> r.youtubeMusicUrl == s.youtubeMusicUrl.value
    ensures !Js.Truthy(s.youtubeMusicUrl) ==> r.youtubeMusicUrl == MusicSearchUrl(s.title, s.artist, enc)
    ensures Displayable(r)
  {
    Song(
      Js.Or(s.id, ListId(kind, idx, now)),
      s.title, s.artist, s.album, s.year, s.duration,
      Js.Or(s.thumbnail, SeededThumbnail(s.title, enc)),
      s.youtubeId,
      Js.Or(s.youtubeMusicUrl, MusicSearchUrl(s.title, s.artist, enc)))
  }

  /** `results.map((s, idx) => ...)` */
  function NormaliseList(kind: string, raws: seq<RawSong>, now: nat, enc: string -> string): (r: seq<Song>)
    ensures |r| == |raws|
    ensures forall i :: 0 <= i < |r| ==> r[i] == NormaliseListItem(kind, raws[i], i, now, enc)
  {
    seq(|raws|, i requires 0 <= i < |raws| => NormaliseListItem(kind, raws[i], i, now, enc))
  }

  /** `searchSongs`: the normalised results, or `[]` when the call failed. */
  function SearchSongs(response: Response<seq<RawSong>>, now: nat, enc: string -> string): (r: seq<Song>)
    ensures response.Failed? ==> r == []
    ensures response.Decoded? ==> |r| == |response.value|
    ensures response.Decoded? ==>
      forall i :: 0 <= i < |r| ==> r[i] == NormaliseListItem(SearchKind, response.value[i], i, now, enc)
    ensures forall i :: 0 <= i < |r| ==> Displayable(r[i])
  {
    match response
    case Failed => []
    case Decoded(raws) => NormaliseList(SearchKind, raws, now, enc)
  }

  /** `getRecommendations`: the normalised results, or `[]` when the call failed. */
  function GetRecommendations(response: Response<seq<RawSong>>, now: nat, enc: string -> string): (r: seq<Song>)
    ensures response.Failed? ==> r == []
    ensures response.Decoded? ==> |r| == |response.value|
    ensures response.Decoded? ==>
      forall i :: 0 <= i < |r| ==> r[i] == NormaliseListItem(RecommendationKind, response.value[i], i, now, enc)
    ensures forall i :: 0 <= i < |r| ==> Displayable(r[i])
  {
    match response
    case Failed => []
    case Decoded(raws) => NormaliseList(RecommendationKind, raws, now, enc)
  }

  /** The object literal `getRandomKoreanMV` builds from the decoded object. */
  function NormaliseFeatured(s: RawSong, now: nat, enc: string -> string): (r: Song)
    ensures CopiesThrough(s, r)
    ensures Js.Truthy(s.id) ==> r.id == s.id.value
    ensures !Js.Truthy(s.id) ==> r.id == FeaturedId(now)
    ensures Js.Truthy(s.thumbnail) ==> r.thumbnail == s.thumbnail.value
    ensures !Js.Truthy(s.thumbnail) ==> r.thumbnail == VideoThumbnail(s.youtubeId)
    ensures Js.Truthy(s.youtubeMusicUrl) ==> r.youtubeMusicUrl == s.youtubeMusicUrl.value
    ensures !Js.Truthy(s.youtubeMusicUrl) ==> r.youtubeMusicUrl == MusicSearchUrl(s.title, s.artist, enc)
    ensures Displayable(r)
  {
    Song(
      Js.Or(s.id, FeaturedId(now)),
      s.title, s.artist, s.album, s.year, s.duration,
      Js.Or(s.thumbnail, VideoThumbnail(s.youtubeId)),
      s.youtubeId,
      Js.Or(s.youtubeMusicUrl, MusicSearchUrl(s.title, s.artist, enc)))
  }

  /** The record `getRandomKoreanMV` returns from its `catch` block. */
  function FallbackFeatured(): (r: Song)
    ensures r.id == "fallback" && r.title == Some("OMG") && r.artist == Some("NewJeans") && r.album == Some("OMG")
    ensures r.year == None && r.duration == None && r.youtubeId == Some(FallbackVideoId)
    ensures r.thumbnail == VideoThumbnail(r.youtubeId)
    ensures Displayable(r)
  {
    Song("fallback", Some("OMG"), Some("NewJeans"), Some("OMG"), None, None,
         VideoThumbnail(Some(FallbackVideoId)), Some(FallbackVideoId),
         "https://music.youtube.com/search?q=NewJeans%20OMG")
  }

  /** `getRandomKoreanMV`: the normalised pick, or the fixed fallback when the call failed. */
  function GetRandomKoreanMV(response: Response<RawSong>, now: nat, enc: string -> string): (r: Song)
    ensures response.Decoded? ==> r == NormaliseFeatured(response.value, now, enc)
    ensures response.Failed? ==>
      && r.id == "fallback" && r.title == Some("OMG") && r.artist == Some("NewJeans")
      && r.album == Some("OMG") && r.year == None && r.duration == None
      && r.youtubeId == Some(FallbackVideoId)
      && r.thumbnail == VideoThumbnail(Some(FallbackVideoId))
      && r.youtubeMusicUrl == "https://music.youtube.com/search?q=NewJeans%20OMG"
    ensures Displayable(r)
  {
    match response
    case Failed => FallbackFeatured()
    case Decoded(s) => NormaliseFeatured(s, now, enc)
  }

  // ---------------------------------------------------------------------
  // Properties of the normalisers
  // ---------------------------------------------------------------------

  /** Within one response, two elements that both lack an id get different ids. */
  lemma ListIdsDistinct(kind: string, i: nat, j: nat, now: nat)
    requires i != j
    ensures ListId(kind, i, now) != ListId(kind, j, now)
  {
  }

  /** The same element normalised at two different clock readings gets two different ids. */
  lemma ListIdsDependOnClock(kind: string, idx: nat, now1: nat, now2: nat)
    requires now1 != now2
    ensures ListId(kind, idx, now1) != ListId(kind, idx, now2)
  {
  }

  /** A normalised response has no two synthesised ids alike. */
  lemma SearchSynthesisedIdsDistinct(raws: seq<RawSong>, now: nat, enc: string -> string, i: nat, j: nat)
    requires i < |raws| && j < |raws| && i != j
    requires !Js.Truthy(raws[i].id) && !Js.Truthy(raws[j].id)
    ensures SearchSongs(Decoded(raws), now, enc)[i].id != SearchSongs(Decoded(raws), now, enc)[j].id
  {
  }

  /**
   * Running the same search twice keeps every element's (title, artist) pair,
   * but an element whose id was synthesised gets a new id when the clock moved:
   * ids are not a stable identity for a song.
   */
  lemma RepeatedSearchKeepsEntries(raws: seq<RawSong>, now1: nat, now2: nat, enc: string -> string)
    ensures |SearchSongs(Decoded(raws), now1, enc)| == |SearchSongs(Decoded(raws), now2, enc)|
    ensures forall i :: 0 <= i < |raws| ==>
      && SearchSongs(Decoded(raws), now1, enc)[i].title == SearchSongs(Decoded(raws), now2, enc)[i].title
      && SearchSongs(Decoded(raws), now1, enc)[i].artist == SearchSongs(Decoded(raws), now2, enc)[i].artist
    ensures now1 != now2 ==> forall i :: 0 <= i < |raws| && !Js.Truthy(raws[i].id) ==>
      SearchSongs(Decoded(raws), now1, enc)[i].id != SearchSongs(Decoded(raws), now2, enc)[i].id
  {
  }

  /** Normalising an already normalised song again, at any index and time, changes nothing. */
  lemma NormaliseListItemIdempotent(kind: string, s: RawSong, idx: nat, now: nat, idx': nat, now': nat, enc: string -> string)
    ensures NormaliseListItem(kind, ToRaw(NormaliseListItem(kind, s, idx, now, enc)), idx', now', enc)
         == NormaliseListItem(kind, s, idx, now, enc)
  {
  }

  /** The same for the featured pick. */
  lemma NormaliseFeaturedIdempotent(s: RawSong, now: nat, now': nat, enc: string -> string)
    ensures NormaliseFeatured(ToRaw(NormaliseFeatured(s, now, enc)), now', enc) == NormaliseFeatured(s, now, enc)
  {
  }

  /** The fallback's thumbnail is the one normalisation would derive from its video id. */
  lemma FallbackMatchesTemplate(now: nat, enc: string -> string)
    ensures var f := FallbackFeatured();
      NormaliseFeatured(ToRaw(f).(thumbnail := None), now, enc).thumbnail == f.thumbnail
  {
  }
}
