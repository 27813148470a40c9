# Spotify playlist app: integration core in Dafny

This project models the three pieces of deterministic logic in the Angular
playlist application:

- **Playlist store adapter** (`PlaylistStore`, `playlist_adapter.dfy`). The
  Firestore `playlists` collection is a sequence of flat documents in the
  store's read order. Each document holds a store-assigned document id, the
  song's keys, the owner's `uid` and a `listName`. The class
  `PlaylistAdapter` keeps that sequence and the signed-in user's uid. Its
  methods place a new document, delete by document id, group a user's
  documents by list name (a loop filling a dictionary), and collect the
  distinct non-empty list names of a user (a loop filling a set).
- **Search adapter** (`SearchApi`, `search_adapter.dfy`). It is a two-field
  token cache for the OAuth 2.0 client-credentials grant (section 4.4 of
  RFC 6749, with `expires_in` in seconds as in section 5.1). It either reuses
  the cached token or performs one exchange, then builds the search request.
  Requests are appended to a ghost log. The clock and the token endpoint's
  answer are inputs.
- **Search page** (`SearchPage`, `search_page.dfy`). This module holds the
  page guard and offset, the five-page pagination window, the mapping of raw
  catalog items to songs, and the choice of the list a song is added to. The
  component is a class over `currentPage`, `totalResults`, `songs`,
  `selectedSong`, `selectedListName`, `newListName` and `playlists`. Search
  and add calls go to ghost logs.

`Domain` (`domain.dfy`) holds the Song and Playlist shapes. `JsStrings`
(`js_strings.dfy`) writes out the JavaScript built-ins the code relies on:
`trim`, `join` and integer `toString`. Each comes with a partner: what
trimming removes, how a joined string splits back, and how a number parses
back.

Behaviour of the code worth knowing:
- A token is reused only when it is truthy, its expiry is truthy (non-zero)
  and `now < expiry`. The expiry is `arrival + expires_in * 1000`, in
  milliseconds.
- `getUserPlaylists` skips empty (falsy) list names. `getPlaylists` groups
  them like any other name.
- The read side of `getPlaylists` takes the preview URL from the key
  `preview_url`, which no write sets. A stored song therefore always reads
  back without a preview URL (`PreviewUrlLost`).
- `removeSongFromList` deletes any document by id, with no owner check.

## Model

| member | source | states |
|---|---|---|
| `PlaylistStore.Query` | src/app/infrastructure/playlist/playlist.adapter.ts:43-45 | the query keeps exactly the documents whose uid matches, and no others |
| `PlaylistStore.PlaylistAdapter.AddSongToList` | src/app/infrastructure/playlist/playlist.adapter.ts:23-33 | with no signed-in user it fails and the store is unchanged; otherwise exactly one document is placed, at the store's chosen read position, with the song's keys, the user's uid and the list name |
| `PlaylistStore.AddGrowsOneList` | src/app/infrastructure/playlist/playlist.adapter.ts:27-32 | wherever the new document falls in the read order, an add puts exactly that song into the target list of its user, at that place (so the list's multiset grows by that one song), and leaves every other list of every reader unchanged; there is no uniqueness check |
| `PlaylistStore.AddTwiceTwoEntries` | src/app/infrastructure/playlist/playlist.adapter.ts:27-32 | adding the same song twice to one list, at any read positions, gives that list two more entries |
| `PlaylistStore.PreviewUrlLost` | src/app/infrastructure/playlist/playlist.adapter.ts:48-57 | a stored song reads back with the document id as its id, and a preview URL does not survive the round trip |
| `PlaylistStore.PlaylistAdapter.GetPlaylists` | src/app/infrastructure/playlist/playlist.adapter.ts:39-66 | with no user the result is empty; otherwise the loop over the user's documents yields a grouping: distinct names, one group per list that occurs, each group holding exactly that list's songs in read order; each of the user's documents is in exactly the group of its own list |
| `PlaylistStore.QueryUnique` | src/app/infrastructure/playlist/playlist.adapter.ts:43-45 | the uid query of a store with unique document ids has unique document ids |
| `PlaylistStore.GroupStep` | src/app/infrastructure/playlist/playlist.adapter.ts:58-59 | one loop step (create the group if missing, then push) keeps the dictionary equal to the grouping of the documents read so far |
| `PlaylistStore.GroupingFromState` | src/app/infrastructure/playlist/playlist.adapter.ts:62-65 | the dictionary's entries, turned into playlists, form a grouping of the snapshot |
| `PlaylistStore.SongsInEmptyIff` | src/app/infrastructure/playlist/playlist.adapter.ts:58-59 | a list has songs exactly when some document is filed under it |
| `PlaylistStore.SongsInMember` | src/app/infrastructure/playlist/playlist.adapter.ts:48-59 | a song is in a list exactly when it is read from a document of that list |
| `PlaylistStore.GroupsNonEmpty` | src/app/infrastructure/playlist/playlist.adapter.ts:58-65 | every returned group has at least one song |
| `PlaylistStore.DocInExactlyItsGroup` | src/app/infrastructure/playlist/playlist.adapter.ts:47-60 | each document's song is in a group exactly when that group is named after the document's list |
| `PlaylistStore.GroupSizesSum` | src/app/infrastructure/playlist/playlist.adapter.ts:47-60 | the group sizes add up to the number of the user's documents |
| `PlaylistStore.SongIdsAreDocIds` | src/app/infrastructure/playlist/playlist.adapter.ts:50-51 | every grouped song carries the id of a store document, not the stored song id |
| `PlaylistStore.RemoveId` | src/app/infrastructure/playlist/playlist.adapter.ts:71-74 | deletion keeps exactly the documents whose id differs |
| `PlaylistStore.PlaylistAdapter.RemoveSongFromList` | src/app/infrastructure/playlist/playlist.adapter.ts:71-74 | the store becomes the old store without that document id, whoever owns it, and ids stay unique |
| `PlaylistStore.RemoveIdSplit` | src/app/infrastructure/playlist/playlist.adapter.ts:71-74 | removing the id of a document that no other document carries deletes that one document and keeps all others in order |
| `PlaylistStore.RemoveIdUnique` | src/app/infrastructure/playlist/playlist.adapter.ts:71-74 | deletion preserves the uniqueness of document ids |
| `PlaylistStore.RemoveIdAbsent` | src/app/infrastructure/playlist/playlist.adapter.ts:71-74 | deleting an id that no document carries changes nothing |
| `PlaylistStore.RemovedSongInvisible` | src/app/infrastructure/playlist/playlist.adapter.ts:71-74 | a grouping read after the deletion holds no song with the deleted id |
| `PlaylistStore.DistinctNames` | src/app/infrastructure/playlist/playlist.adapter.ts:84-90 | the names are pairwise distinct and are exactly the non-empty list names of the snapshot |
| `PlaylistStore.DistinctNamesFirstOccurrenceOrder` | src/app/infrastructure/playlist/playlist.adapter.ts:84-90 | the names come in first-occurrence order |
| `PlaylistStore.PlaylistAdapter.GetUserPlaylists` | src/app/infrastructure/playlist/playlist.adapter.ts:79-91 | the loop over a set yields exactly the distinct non-empty names of that uid's documents, for any uid |
| `PlaylistStore.GroupAsWrittenCharacterized` | src/app/infrastructure/playlist/playlist.adapter.ts:47-60 | the loop as written, over a `{}` literal, throws exactly when a list is named after an Object.prototype member; otherwise it builds the grouping |
| `PlaylistStore.ConstructorListBreaksGrouping` | src/app/infrastructure/playlist/playlist.adapter.ts:58-59 | a single song filed under "constructor" makes the code as written throw, while the intended grouping has one group |
| `SearchApi.SearchAdapter.constructor` | src/app/infrastructure/search/search.adapter.ts:17-18 | the cache starts empty (no token, no expiry) and nothing has been sent |
| `SearchApi.SearchAdapter.GetAccessToken` | src/app/infrastructure/search/search.adapter.ts:33-52 | an exchange happens exactly when the cached token is not usable; a reuse changes neither field and sends nothing; an exchange sends one client-credentials request and stores the token and `arrival + expires_in * 1000`; a failed exchange yields no token and keeps the cache |
| `SearchApi.SearchAdapter.SearchSongs` | src/app/infrastructure/search/search.adapter.ts:62-78 | zero or one exchange, then one GET authorised as `Bearer <token>` with the token this call obtained; a failed exchange sends no search |
| `SearchApi.ReuseWindow` | src/app/infrastructure/search/search.adapter.ts:34-47 | for a non-empty token and a non-zero expiry (both tested for truthiness), a token stored after an exchange is reused exactly while `now < arrival + expires_in * 1000` |
| `SearchApi.TokenLifetimeScenario` | src/app/infrastructure/search/search.adapter.ts:34-47 | with `expires_in = 3600` and a token fetched at `t0`, the first call on an adapter exchanges, the call at `t0 + 3 500 000` reuses, and the call at `t0 + 3 600 000` exchanges again (the test is a strict `<`); on a second, fresh adapter whose token was also fetched at `t0`, the call at `t0 + 3 700 000` exchanges again |
| `SearchApi.SearchParamsReadBack` | src/app/infrastructure/search/search.adapter.ts:69-73 | the parameters are exactly `q`, `type`, `limit`, `offset`, and they read back as the query, "track" and the two numbers |
| `JsStrings.IntRoundTrip` | src/app/infrastructure/search/search.adapter.ts:71-72 | an integer's `toString` parses back to the integer |
| `SearchPage.CeilDiv` | src/app/presentation/search/search.ts:114 | the result is the least `q` with `a <= q * b` |
| `SearchPage.PageAcceptedIff` | src/app/presentation/search/search.ts:105 | the guard accepts exactly the pages `0 <= p < ceil(totalResults / pageSize)` |
| `SearchPage.PageBoundaryExample` | src/app/presentation/search/search.ts:105 | with page size 12 and 25 results, pages 0, 1 and 2 are accepted and pages 3 and -1 are rejected |
| `SearchPage.SearchComponent.ChangePage` | src/app/presentation/search/search.ts:104-108 | a rejected page changes nothing and issues no search; an accepted page becomes current and issues a search at offset `page * pageSize` with limit `pageSize` |
| `SearchPage.SearchComponent.Search` | src/app/presentation/search/search.ts:68-89 | one search at offset `page * pageSize`; an answer sets `totalResults` to `tracks.total` and maps the items; an error changes neither |
| `SearchPage.SearchComponent.SearchTracks` | src/app/presentation/search/search.ts:94-97 | the current page becomes 0 and the search starts at offset 0 |
| `SearchPage.PageBoundaryScenario` | src/app/presentation/search/search.ts:104-108 | with 25 results, page 3 issues no search and page 2 searches from offset 24 |
| `SearchPage.PageRange` | src/app/presentation/search/search.ts:113-119 | at most five consecutive ascending pages from `max(0, currentPage - 2)`, all below the page count, empty exactly when the end does not exceed the start |
| `SearchPage.PageRangeMaximal` | src/app/presentation/search/search.ts:116-118 | a window shorter than five pages ends at the last page |
| `SearchPage.PageRangeContainsCurrent` | src/app/presentation/search/search.ts:116-117 | a current page that exists is in its own window |
| `SearchPage.SearchComponent.GetPageRange` | src/app/presentation/search/search.ts:113-119 | over the component's fields, an existing current page is shown |
| `SearchPage.FirstImageUrl` | src/app/presentation/search/search.ts:80 | the URL is "" exactly when there is no first image or its URL is missing or empty; otherwise it is that URL |
| `SearchPage.MapTracks` | src/app/presentation/search/search.ts:75-82 | one song per item, in order, with the item's id, name, artist names joined by ", ", album name, first image URL and `preview_url` |
| `JsStrings.JoinSplitRoundTrip` | src/app/presentation/search/search.ts:78 | a non-empty list of names, none containing a comma, joined with ", " splits back into the same names |
| `SearchPage.ArtistsRoundTrip` | src/app/presentation/search/search.ts:78 | when the item has at least one artist and no artist name contains a comma, a song's artists string splits back into the item's artist names (a name such as "Tyler, The Creator" or an empty artist list does not round-trip) |
| `JsStrings.Trim` | src/app/presentation/search/search.ts:164 | the result is a slice of the input with only whitespace cut from either end, and it neither starts nor ends with whitespace |
| `JsStrings.TrimEmptyIff` | src/app/presentation/search/search.ts:133 | a name trims to "" exactly when it is made only of whitespace |
| `JsStrings.TrimIdempotent` | src/app/presentation/search/search.ts:138 | trimming an already trimmed name changes nothing |
| `SearchPage.SearchComponent.AddToPlaylist` | src/app/presentation/search/search.ts:127-139 | nothing is added without a user or with an empty or blank name; otherwise the song is added once under the trimmed name |
| `SearchPage.AddAcceptedIff` | src/app/presentation/search/search.ts:127-136 | the add guard accepts exactly a signed-in user with a name that is not all whitespace |
| `SearchPage.SearchComponent.OpenModal` | src/app/presentation/search/search.ts:146-155 | the song is selected and the typed name cleared; with a user the first existing list is preselected, or "new list" when there is none |
| `SearchPage.ResolvedEmptyIff` | src/app/presentation/search/search.ts:163-167 | the resolved name is blank exactly when "new list" is chosen with only whitespace typed, or when nothing is selected |
| `SearchPage.SearchComponent.ConfirmAdd` | src/app/presentation/search/search.ts:160-177 | without a song nothing happens; a blank resolved name adds nothing and keeps the selection; otherwise the song goes to addToPlaylist and the selection is reset |
| `SearchPage.AddToExistingListScenario` | src/app/presentation/search/search.ts:146-177 | a user with one list "Favorites" opens the dialog and confirms: the song is added to "Favorites" once and the selection is cleared |

## Left out

- Firestore, HttpClient, RxJS and async/await are not modelled. The store is
  an in-memory sequence, HTTP answers are inputs, and requests go to ghost
  logs. Concurrent interleavings are left out, including two calls that both
  find the token expired and the store changing between reads.
- `Date.now()` is a parameter. `getAccessToken` reads it twice, at the cache
  test and when the response arrives, so the model takes two instants
  (`now`, `arrival`).
- `btoa` (Base64, section 4 of RFC 4648) is a function parameter. Its
  encoding is not modelled.
- The client id, secret and API URL come from the build environment. They
  are constructor arguments.
- Store-assigned document ids are a parameter of `AddSongToList`, and must be
  fresh. Store write and read failures are not modelled.
- AddSongToList, AddGrowsOneList: the store reads documents back ordered by
  document id, and `addDoc` picks a random id, so the model takes the read
  position of the new document as a parameter rather than deriving it from
  the id. Ordering by id itself is not modelled.
- `Object.entries` key order (integer-like keys first): group order is not
  stated, only group contents.
- Record fields are strings, except the optional preview URL. Missing fields read as `undefined` and
  JavaScript numbers (NaN, floating point, `expires_in` being absent) are
  not modelled. `totalResults`, pages and offsets are unbounded integers.
- `SearchApi.SearchAdapter.SearchSongs`: an upstream search failure is the
  caller's concern (the search page's `reply` is None). The search response
  itself is not returned by the adapter model.
- `isLoading`, `alert` messages, `songs` display, `searchTerm` binding,
  `loadUserPlaylists` and `ngOnInit` are not modelled. `openModal` takes the
  result of `getUserPlaylists` as its argument, and the fetch is treated as
  atomic with the rest of the method.
- `confirmAdd` does not await `addToPlaylist`. The model runs the add before
  clearing the selection, which is the only observable order for its fields.
- The auth adapter, the application services, ports, providers, routing,
  guards and the login, register, forgot-password, playlists, header and
  footer components are not part of this model: they are wiring, library
  calls or form state.

## Findings

| source | as written | input that shows it | evidently intended | confidence | as-written member | corrected member |
|---|---|---|---|---|---|---|
| src/app/infrastructure/playlist/playlist.adapter.ts:47-59 | groups into a `{}` literal, so `grouped[name]` finds inherited Object.prototype members | one song saved to a list named "constructor" (or "toString", "__proto__", …): `grouped["constructor"]` is truthy, is not an array, and `.push` throws a TypeError | a dictionary with no inherited keys (`Object.create(null)` or a `Map`), grouping every name | not executed | `PlaylistStore.ConstructorListBreaksGrouping` | `PlaylistStore.PlaylistAdapter.GetPlaylists` |
