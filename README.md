# K-PULSE music discovery client — a Dafny model

K-PULSE is a small browser client. The home view shows a "today's pick" Korean
music video. The user can search for songs, open a song to see similar songs,
and keep a library of saved songs in local storage. A remote generative model
supplies all song data as JSON. The client only normalises that JSON and keeps
view state.

This project models the two parts of the client that contain logic:

- **The service layer** (`geminiService.ts`, module `GeminiService`). Each of
  the three services gets the decoded response, or `Failed` when the call,
  the decoding or the mapping threw. Missing `id`, `thumbnail` and
  `youtubeMusicUrl` values are filled in from fixed templates. JavaScript
  `||` treats `""` as missing, so the empty string is filled in too. Every
  other property is copied unchanged, as the object spread does. On failure
  `searchSongs` and `getRecommendations` give `[]`, and `getRandomKoreanMV`
  gives its fixed "OMG" / "NewJeans" record. An empty response text decodes
  as `"[]"` or `"{}"`, so the model covers it as `Decoded([])` or as a
  `RawSong` with every property absent. `Date.now()` is the parameter `now`.
  `encodeURIComponent` is the function parameter `enc`, and no property of
  it is assumed.
- **The component state and handlers** (`App.tsx`, module `App`). The
  saved-library logic (`some`, `filter`, append) is written as functions over
  `seq<Song>`. The component state is the class `App.Controller`. Each
  handler that awaits a service call is one atomic method, and it takes the
  service's decoded response as a parameter. Each method's contract gives
  the complete new state, as an update of the `Snapshot` of all fields.
  `Valid()` states that local storage always holds the current library,
  because the effect at App.tsx:23-25 writes it after every change.
- **JavaScript built-ins** (module `Js`):
  - `||` on a string that may be `undefined`;
  - `String(undefined)` is `"undefined"`, as in `${s.youtubeId}` or
    `s.title + ' '`;
  - decimal printing of `idx` and of the clock;
  - `String.prototype.trim`, with the ECMAScript whitespace and
    line-terminator set.

`Song` follows types.ts with one deliberate difference. `title`, `artist` and
`album` are `Option<string>`. The client copies them from the response
without checking them, so a record the model leaves incomplete keeps them
`undefined`. `Option` equality is exactly `===` on `string | undefined`,
which is the comparison the saved-library check uses.

Saved-song identity is the (title, artist) pair. The id is never part of it.
Toggling a song that is not saved appends it unchanged. Toggling a song that
is saved removes every matching entry and keeps the rest in order. Two
toggles from a library without the song give the library back
(`App.ToggleTwiceRestores`). Two toggles from a library that holds the song
drop every match and append the toggled record (`App.ToggleTwiceFromSaved`).
That equals the original library exactly when its only match is the song
itself, as the last entry (`App.ToggleTwiceRestoresWhenLast`).

## Model

| member | source | states |
|---|---|---|
| `Js.Decimal` | geminiService.ts:38 | `${n}` of a non-negative integer is a non-empty string of digits, with no leading zero unless n is 0 |
| `Js.TrimStart` | App.tsx:41 | the result is what is left after removing the longest all-whitespace prefix |
| `Js.TrimEnd` | App.tsx:41 | the result is what is left after removing the longest all-whitespace suffix |
| `Js.Trim` | App.tsx:41 | `trim()` is no longer than its input, neither starts nor ends with whitespace, and is empty exactly when every character of the input is JavaScript whitespace, which is when `!searchQuery.trim()` holds |
| `Js.Or` | geminiService.ts:38-40 | the or-default of `o` and `d` is `o` when `o` is present and non-empty, and `d` otherwise |
| `Js.Text` | geminiService.ts:39-40 | a present string prints as itself and `undefined` prints as "undefined" |
| `GeminiService.ListId` | geminiService.ts:38 | the synthesised list id starts with the kind and "-", then holds the decimal index, "-", and the decimal clock reading; both numbers read back from the id |
| `GeminiService.FeaturedId` | geminiService.ts:120 | the synthesised featured id is "rand-" followed by digits that read back as the clock reading |
| `GeminiService.SeededThumbnail` | geminiService.ts:39 | the placeholder URL is the picsum seed prefix, then the encoded title (or the encoded "undefined"), then "/300/300" |
| `GeminiService.VideoThumbnail` | geminiService.ts:121 | the thumbnail URL is the img.youtube.com prefix, then the unencoded video id (or "undefined"), then "/maxresdefault.jpg" |
| `GeminiService.MusicSearchUrl` | geminiService.ts:40 | the link is the YouTube Music search prefix followed by the encoding of title, a space, and artist |
| `GeminiService.FallbackFeatured` | geminiService.ts:126-135 | the catch-block record has id "fallback", title and album "OMG", artist "NewJeans", no year or duration, video f6YDKF0LVWw, and the thumbnail template applied to that video id; it is displayable |
| `GeminiService.NormaliseListItem` | geminiService.ts:36-41 | title, artist, album, year, duration and youtubeId are copied; a present non-empty id, thumbnail or youtubeMusicUrl is kept; otherwise id is `<kind>-<idx>-<now>`, thumbnail is the picsum URL seeded by enc(title), and the link is the YouTube Music search for enc(title + " " + artist); id, thumbnail and link are never empty |
| `GeminiService.NormaliseList` | geminiService.ts:36 | the `map` keeps length and order: element i is element i of the input, normalised with index i |
| `GeminiService.SearchSongs` | geminiService.ts:35-45 | on failure the result is `[]`; otherwise element i is input element i normalised with kind "search"; every element is displayable |
| `GeminiService.GetRecommendations` | geminiService.ts:76-86 | on failure the result is `[]`; otherwise element i is input element i normalised with kind "rec"; every element is displayable |
| `GeminiService.NormaliseFeatured` | geminiService.ts:117-123 | copies the same fields; a missing id becomes `rand-<now>`; a missing thumbnail becomes the img.youtube.com maxresdefault URL of the unencoded youtubeId; a missing link becomes the YouTube Music search for enc(title + " " + artist) |
| `GeminiService.GetRandomKoreanMV` | geminiService.ts:117-135 | on success the result is the normalised pick; on failure it is the fixed record: id "fallback", title and album "OMG", artist "NewJeans", no year or duration, video f6YDKF0LVWw, and that video's thumbnail and the fixed music link |
| `GeminiService.ListIdsDistinct` | geminiService.ts:38 | two different indices give two different synthesised ids for the same clock reading |
| `GeminiService.ListIdsDependOnClock` | geminiService.ts:38 | the same index gives different synthesised ids for different clock readings |
| `GeminiService.SearchSynthesisedIdsDistinct` | geminiService.ts:36-38 | in one search response, two elements that both lack an id end up with different ids |
| `GeminiService.RepeatedSearchKeepsEntries` | geminiService.ts:36-41 | repeating a search at another time keeps each element's title and artist but changes every synthesised id |
| `GeminiService.NormaliseListItemIdempotent` | geminiService.ts:37-40 | normalising an already normalised song again, at any index or time, changes nothing |
| `GeminiService.NormaliseFeaturedIdempotent` | geminiService.ts:119-122 | normalising an already normalised featured pick again changes nothing |
| `GeminiService.FallbackMatchesTemplate` | geminiService.ts:121-133 | the fallback thumbnail is what the featured template derives from the fallback video id |
| `App.IsSaved` | App.tsx:59 | `some` is true exactly when some entry has the song's title and artist |
| `App.RemoveMatching` | App.tsx:61 | the `filter` result is no longer than its input, and none of its entries matches the song |
| `App.ToggleSave` | App.tsx:58-65 | after the toggle, the song counts as saved exactly when it did not before |
| `App.RemoveMatchingMembers` | App.tsx:61 | an entry is in the filtered list exactly when it was in the list and does not match; every copy of a non-matching record survives, and no copy of a matching one |
| `App.RemoveMatchingIsSubsequence` | App.tsx:61 | the filtered list is a subsequence of the original: it only deletes entries and never reorders them |
| `App.RemoveMatchingAppend` | App.tsx:61 | filtering a concatenation is concatenating the filtered parts, so surviving entries keep their order |
| `App.RemoveMatchingLength` | App.tsx:61 | the filter removes exactly as many entries as match |
| `App.RemoveMatchingNoMatch` | App.tsx:61 | when nothing matches, the filter returns the list unchanged |
| `App.RemoveMatchingIgnoresId` | App.tsx:61 | two songs with the same title and artist filter the list identically |
| `App.RemoveMatchingKeepsNoDuplicates` | App.tsx:61 | filtering a list with no duplicate (title, artist) pairs leaves one with none |
| `App.NoDuplicatesAtMostOneMatch` | App.tsx:59 | a list with no duplicate pairs holds at most one match for any song |
| `App.ToggleAppendsWhenAbsent` | App.tsx:62-63 | toggling an unsaved song appends it unchanged at the end: the length grows by one and the earlier entries are untouched |
| `App.ToggleRemovesWhenPresent` | App.tsx:59-61 | toggling a saved song removes every matching entry, keeps every copy of each non-matching record, is a subsequence of the library (original order), and shrinks the list |
| `App.ToggleIgnoresId` | App.tsx:59-63 | songs with the same title and artist but different ids get the same saved answer; when saved they get the same toggle result; when unsaved both keep the whole library before the appended record |
| `App.ToggleTwiceRestores` | App.tsx:58-65 | two toggles starting from a library that does not hold the song give back the original library |
| `App.ToggleTwiceFromSaved` | App.tsx:58-65 | two toggles starting from a library that holds the song drop all its matches and append the toggled record |
| `App.ToggleTwiceRestoresWhenLast` | App.tsx:58-65 | from a library that holds the song, two toggles give the library back exactly when its only match is the song itself as the last entry |
| `App.ToggleKeepsNoDuplicates` | App.tsx:59-63 | a toggle keeps the library free of duplicate (title, artist) pairs, and on a saved song then removes exactly one entry |
| `App.Controller.IsSongSaved` | App.tsx:75-77 | true exactly when some saved entry has the song's title and artist |
| `App.Controller.constructor` | App.tsx:8-25 | the initial state: main view, empty query, lists and selections, not loading, the library loaded from storage if storage holds one (else empty), and storage rewritten with it |
| `App.Controller.FetchMainMV` | App.tsx:32-37 | sets the featured video to the service's result and ends not loading; nothing else changes |
| `App.Controller.EditQuery` | App.tsx:117 | typing replaces the query and nothing else |
| `App.Controller.HandleSearch` | App.tsx:39-47 | a blank query changes no state; any other query ends in the search view with the service's results and not loading, and nothing else changes |
| `App.Controller.HandleSelectSong` | App.tsx:49-56 | the song becomes the selected song, the view becomes detail, the recommendations become the service's result, loading ends false, and nothing else changes |
| `App.Controller.HandleToggleSave` | App.tsx:58-65 | the library becomes its toggle and is persisted, the song's saved status flips, and nothing else changes |
| `App.Controller.HandleRefreshRecommendations` | App.tsx:67-73 | changes no state while no song is selected; otherwise it replaces the recommendations, ends not loading, and changes nothing else |
| `App.Controller.ClickLogo` | App.tsx:94 | the view becomes main and the query becomes empty |
| `App.Controller.ClickLibrary` | App.tsx:100 | the view becomes saved |
| `App.Controller.ClickBack` | App.tsx:184 | the view becomes main |
| `App.SearchSelectSaveScenario` | App.tsx:28-65 | from an empty library: load the pick, search, open the first result; toggling it saves exactly one entry with its title and artist, and a second toggle leaves the library empty, still in the detail view |

## Left out

- Rendering (App.tsx:88-350): markup, styling and the embedded player only read state. The events they fire are modelled as the handlers above.
- The remote model call (geminiService.ts:5-33, 50-74, 95-115): client construction, prompts, response schemas and `generateContent`. A service receives the decoded response, or `Failed`. So the search query and the seed song, which only appear in prompts, are not parameters. The schema's `required` lists are not enforced, just as the client does not enforce them.
- `JSON.parse` and `JSON.stringify`: responses arrive decoded. Local storage holds the decoded list last written (`Controller.stored`).
- Malformed stored data: App.tsx:20 parses it without a guard, so the mount effect throws. The model's constructor takes the decoded list, or `None` when the key is missing or empty. It does not claim that corrupt storage is handled.
- Properties other than the nine `Song` fields that the response could carry and the spread would copy. Non-string values in string fields.
- The genre pick (geminiService.ts:92-93): `Math.random` only shapes the prompt.
- `copyToClipboard` (App.tsx:79-86): clipboard and `alert` I/O. `console.error` logging in the catch blocks. `e?.preventDefault()`.
- Concurrency: overlapping fetches, and the last-to-resolve-wins race. Each handler is one atomic transition. `isLoading` is true only inside it, so the model observes it only as false afterwards.
- `GeminiService.NormaliseList`: the source reads `Date.now()` once per element that lacks an id. The model takes a single reading `now` for the whole response.
- `encodeURIComponent` is a parameter with no properties. So nothing is proved about escaping or about the encoded text appearing in the URL.
- constants.tsx: icons, a colour and an unused id list. It has no operations.
- The `SearchResult` interface (types.ts:16-18): nothing uses it.
