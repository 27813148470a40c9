/** The search page: page arithmetic, the pagination window, the mapping of
    raw catalog items to songs, and the choice of the list a song is added to.
    Calls to the search and playlist services are recorded in ghost logs; the
    service's answer is an input. */
module SearchPage {
  import opened Domain
  import opened JsStrings

  const MaxPagesToShow: int := 5
  /** The option value the list selector uses for "a new list". */
  const CustomListOption: string := "__custom__"

  function Max(a: int, b: int): int { if a >= b then a else b }
  function Min(a: int, b: int): int { if a <= b then a else b }

  // ---------------------------------------------------------------------------
  // Page arithmetic

  /** `Math.ceil(a / b)` on integers, for a positive divisor. */
  function CeilDiv(a: int, b: int): (q: int)
    requires b > 0
    ensures (q - 1) * b < a <= q * b
  {
    var f := (-a) / b;
    assert -a == f * b + (-a) % b;
    assert (-f - 1) * b == -f * b - b;
    -f
  }

  /** The guard of changePage: a page is taken unless it is negative or
      starts at or past the last result. */
  predicate PageAccepted(page: int, pageSize: int, totalResults: int)
  {
    !(page < 0 || page * pageSize >= totalResults)
  }

  /** The accepted pages are exactly `0 .. ceil(totalResults / pageSize) - 1`. */
  lemma PageAcceptedIff(page: int, pageSize: int, totalResults: int)
    requires pageSize > 0
    ensures PageAccepted(page, pageSize, totalResults) <==> 0 <= page < CeilDiv(totalResults, pageSize)
  {
    var q := CeilDiv(totalResults, pageSize);
    if 0 <= page < q {
      assert page * pageSize <= (q - 1) * pageSize by {
        MulMonotone(page, q - 1, pageSize);
      }
    }
    if 0 <= page && page >= q {
      assert q * pageSize <= page * pageSize by {
        MulMonotone(q, page, pageSize);
      }
    }
  }

  lemma MulMonotone(a: int, b: int, c: int)
    requires a <= b && c > 0
    ensures a * c <= b * c
  {
    assert b * c - a * c == (b - a) * c;
  }

  /** With 12 results per page and 25 results, pages 0, 1 and 2 are taken
      and page 3 is not. */
  lemma PageBoundaryExample()
    ensures CeilDiv(25, 12) == 3
    ensures PageAccepted(0, 12, 25) && PageAccepted(1, 12, 25) && PageAccepted(2, 12, 25)
    ensures !PageAccepted(3, 12, 25) && !PageAccepted(-1, 12, 25)
  {
  }

  /** getPageRange: up to five consecutive pages starting two before the
      current one (never below 0) and ending before the page count. */
  function PageRange(currentPage: int, totalResults: int, pageSize: int): (r: seq<int>)
    requires pageSize > 0
    ensures |r| <= MaxPagesToShow
    ensures forall i :: 0 <= i < |r| ==> r[i] == Max(0, currentPage - 2) + i
    ensures forall i :: 0 <= i < |r| ==> 0 <= r[i] < CeilDiv(totalResults, pageSize)
    ensures r == [] <==> Min(Max(0, currentPage - 2) + MaxPagesToShow, CeilDiv(totalResults, pageSize))
                         <= Max(0, currentPage - 2)
  {
    var totalPages := CeilDiv(totalResults, pageSize);
    var start := Max(0, currentPage - MaxPagesToShow / 2);
    var end := Min(start + MaxPagesToShow, totalPages);
    // Array.from takes a negative length as 0.
    seq(Max(0, end - start), i => start + i)
  }

  /** The window is as wide as it can be: when it has fewer than five pages,
      the page after its last one does not exist. */
  lemma PageRangeMaximal(currentPage: int, totalResults: int, pageSize: int)
    requires pageSize > 0
    ensures var r := PageRange(currentPage, totalResults, pageSize);
            |r| < MaxPagesToShow ==> Max(0, currentPage - 2) + |r| >= CeilDiv(totalResults, pageSize)
  {
  }

  /** A valid current page is always in its own window. */
  lemma PageRangeContainsCurrent(currentPage: int, totalResults: int, pageSize: int)
    requires pageSize > 0
    ensures 0 <= currentPage < CeilDiv(totalResults, pageSize)
            ==> currentPage in PageRange(currentPage, totalResults, pageSize)
  {
    if 0 <= currentPage < CeilDiv(totalResults, pageSize) {
      var r := PageRange(currentPage, totalResults, pageSize);
      var start := Max(0, currentPage - 2);
      assert |r| > currentPage - start;
      assert r[currentPage - start] == currentPage;
    }
  }

  // ---------------------------------------------------------------------------
  // Raw catalog items

  datatype RawImage = RawImage(url: Option<string>)
  datatype RawAlbum = RawAlbum(name: string, images: seq<RawImage>)
  datatype RawArtist = RawArtist(name: string)
  datatype RawTrack = RawTrack(
    id: string,
    name: string,
    artists: seq<RawArtist>,
    album: RawAlbum,
    preview_url: Option<string>)
  /** The `tracks` part of a search response. */
  datatype TracksPage = TracksPage(total: int, items: seq<RawTrack>)

  function ArtistNames(artists: seq<RawArtist>): (ns: seq<string>)
    ensures |ns| == |artists| && forall i :: 0 <= i < |artists| ==> ns[i] == artists[i].name
  {
    seq(|artists|, i requires 0 <= i < |artists| => artists[i].name)
  }

  /** `images[0]?.url || ''`: a missing first image, and a null or empty URL,
      all give "". */
  function FirstImageUrl(images: seq<RawImage>): (url: string)
    ensures url == "" <==> |images| == 0 || images[0].url.None? || images[0].url == Some("")
    ensures url != "" ==> images[0].url == Some(url)
  {
    if |images| > 0 && images[0].url.Some? then images[0].url.value else ""
  }

  /** One raw catalog item as a song. */
  function ToSong(item: RawTrack): Song
  {
    Song(item.id, item.name, Join(ArtistNames(item.artists), ", "), item.album.name,
         FirstImageUrl(item.album.images), item.preview_url)
  }

  /** The items of a response as songs: one per item, in order, keeping the
      catalog id and the preview URL, with the artist names joined by ", ". */
  function MapTracks(items: seq<RawTrack>): (songs: seq<Song>)
    ensures |songs| == |items|
    ensures forall i :: 0 <= i < |items| ==>
              && songs[i].id == items[i].id && songs[i].name == items[i].name
              && songs[i].artists == Join(ArtistNames(items[i].artists), ", ")
              && songs[i].album == items[i].album.name
              && songs[i].previewUrl == items[i].preview_url
              && songs[i].imageUrl == FirstImageUrl(items[i].album.images)
  {
    seq(|items|, i requires 0 <= i < |items| => ToSong(items[i]))
  }

  /** The joined artists string gives back the artist names, when there is at
      least one and none contains a comma. */
  lemma ArtistsRoundTrip(item: RawTrack)
    requires |item.artists| > 0
    requires forall i :: 0 <= i < |item.artists| ==> ',' !in item.artists[i].name
    ensures SplitAtCommas(ToSong(item).artists) == ArtistNames(item.artists)
  {
    JoinSplitRoundTrip(ArtistNames(item.artists));
  }

  // ---------------------------------------------------------------------------
  // Choosing the list

  /** confirmAdd's choice: the typed name, trimmed, when "new list" is
      selected; the selected name otherwise. */
  function ResolveListName(selected: string, typed: string): string
  {
    if selected == CustomListOption then Trim(typed) else selected
  }

  /** The resolved name is empty exactly when "new list" is selected and
      nothing but whitespace was typed, or when nothing is selected. */
  lemma ResolvedEmptyIff(selected: string, typed: string)
    ensures ResolveListName(selected, typed) == ""
        <==> (selected == CustomListOption && AllWhitespace(typed)) || selected == ""
  {
    TrimEmptyIff(typed);
  }

  /** addToPlaylist's guard: a signed-in user, and a name that is neither
      empty nor blank. */
  predicate AddAccepted(user: Option<string>, listName: string)
  {
    user.Some? && listName != "" && Trim(listName) != ""
  }

  /** The guard rejects exactly the missing user and the names made only of
      whitespace. */
  lemma AddAcceptedIff(user: Option<string>, listName: string)
    ensures AddAccepted(user, listName) <==> user.Some? && !AllWhitespace(listName)
  {
    TrimEmptyIff(listName);
  }

  // ---------------------------------------------------------------------------
  // The component

  /** A search request sent to the search service. */
  datatype SearchCall = SearchCall(query: string, offset: int, limit: int)
  /** An add sent to the playlist service. */
  datatype AddCall = AddCall(song: Song, listName: string)

  class SearchComponent {
    var songs: seq<Song>
    var searchTerm: string
    var currentPage: int
    const pageSize: int := 12
    var totalResults: int
    var selectedSong: Option<Song>
    var selectedListName: string
    var newListName: string
    var playlists: seq<string>
    /** The signed-in user's uid, owned by the identity provider. */
    var currentUser: Option<string>
    ghost var searches: seq<SearchCall>
    ghost var adds: seq<AddCall>

    constructor (currentUser: Option<string>)
      ensures songs == [] && searchTerm == "" && currentPage == 0 && totalResults == 0
      ensures selectedSong == None && selectedListName == "" && newListName == "" && playlists == []
      ensures this.currentUser == currentUser && searches == [] && adds == []
    {
      songs := [];
      searchTerm := "";
      currentPage := 0;
      totalResults := 0;
      selectedSong := None;
      selectedListName := "";
      newListName := "";
      playlists := [];
      this.currentUser := currentUser;
      searches := [];
      adds := [];
    }

    /** getPageRange over the component's fields: a current page that
        exists is shown among its neighbours. */
    function GetPageRange(): (r: seq<int>)
      reads this
      ensures 0 <= currentPage < CeilDiv(totalResults, pageSize) ==> currentPage in r
    {
      PageRangeContainsCurrent(currentPage, totalResults, pageSize);
      PageRange(currentPage, totalResults, pageSize)
    }

    /** search(page): asks for `pageSize` results from offset
        `page * pageSize`; on an answer, stores its total and its songs (on an
        error, `reply` is None and nothing is stored). */
    method Search(page: int, reply: Option<TracksPage>)
      modifies this`songs, this`totalResults, this`searches
      ensures searches == old(searches) + [SearchCall(searchTerm, page * pageSize, pageSize)]
      ensures reply.Some? ==> totalResults == reply.value.total && songs == MapTracks(reply.value.items)
      ensures reply.None? ==> totalResults == old(totalResults) && songs == old(songs)
    {
      var offset := page * pageSize;
      searches := searches + [SearchCall(searchTerm, offset, pageSize)];
      if reply.Some? {
        totalResults := reply.value.total;
        songs := MapTracks(reply.value.items);
      }
    }

    /** searchTracks: a new search starts at page 0. */
    method SearchTracks(reply: Option<TracksPage>)
      modifies this`currentPage, this`songs, this`totalResults, this`searches
      ensures currentPage == 0
      ensures searches == old(searches) + [SearchCall(searchTerm, 0, pageSize)]
      ensures reply.Some? ==> totalResults == reply.value.total && songs == MapTracks(reply.value.items)
      ensures reply.None? ==> totalResults == old(totalResults) && songs == old(songs)
    {
      currentPage := 0;
      Search(currentPage, reply);
    }

    /** changePage: an out-of-range page is ignored and issues no search;
        otherwise it becomes the current page and is searched. */
    method ChangePage(page: int, reply: Option<TracksPage>)
      modifies this`currentPage, this`songs, this`totalResults, this`searches
      ensures !PageAccepted(page, pageSize, old(totalResults)) ==>
                && currentPage == old(currentPage) && searches == old(searches)
                && totalResults == old(totalResults) && songs == old(songs)
      ensures PageAccepted(page, pageSize, old(totalResults)) ==>
                && currentPage == page
                && searches == old(searches) + [SearchCall(searchTerm, page * pageSize, pageSize)]
                && (reply.Some? ==> totalResults == reply.value.total && songs == MapTracks(reply.value.items))
                && (reply.None? ==> totalResults == old(totalResults) && songs == old(songs))
    {
      if page < 0 || page * pageSize >= totalResults {
        return;
      }
      currentPage := page;
      Search(page, reply);
    }

    /** addToPlaylist: adds nothing without a user or with an empty or blank
        name; otherwise adds the song under the trimmed name. */
    method AddToPlaylist(song: Song, listName: string)
      modifies this`adds
      ensures adds == old(adds) + (if AddAccepted(currentUser, listName) then [AddCall(song, Trim(listName))] else [])
    {
      if currentUser.None? {
        return;
      }
      if listName == "" || Trim(listName) == "" {
        return;
      }
      adds := adds + [AddCall(song, Trim(listName))];
    }

    /** openModal: selects the song and clears the typed name; with a user,
        `fetched` is that user's list names as getUserPlaylists returns them,
        and the first one is preselected, or "new list" when there is none. */
    method OpenModal(song: Song, fetched: seq<string>)
      modifies this`selectedSong, this`newListName, this`playlists, this`selectedListName
      ensures selectedSong == Some(song) && newListName == ""
      ensures currentUser.Some? ==>
                && playlists == fetched
                && selectedListName == (if |fetched| > 0 then fetched[0] else CustomListOption)
      ensures currentUser.None? ==>
                playlists == old(playlists) && selectedListName == old(selectedListName)
    {
      selectedSong := Some(song);
      newListName := "";
      if currentUser.Some? {
        playlists := fetched;
        selectedListName := if |playlists| > 0 then playlists[0] else CustomListOption;
      }
    }

    /** confirmAdd: without a selected song nothing happens; an empty resolved
        name adds nothing and keeps the selection; otherwise the song is
        passed to addToPlaylist and the selection is cleared. */
    method ConfirmAdd()
      modifies this`selectedSong, this`selectedListName, this`newListName, this`adds
      ensures old(selectedSong).None? ==>
                && selectedSong == old(selectedSong) && selectedListName == old(selectedListName)
                && newListName == old(newListName) && adds == old(adds)
      ensures old(selectedSong).Some? && ResolveListName(old(selectedListName), old(newListName)) == "" ==>
                && selectedSong == old(selectedSong) && selectedListName == old(selectedListName)
                && newListName == old(newListName) && adds == old(adds)
      ensures old(selectedSong).Some? && ResolveListName(old(selectedListName), old(newListName)) != "" ==>
                && selectedSong == None && selectedListName == "" && newListName == ""
                && var name := ResolveListName(old(selectedListName), old(newListName));
                   adds == old(adds)
                         + (if AddAccepted(currentUser, name) then [AddCall(old(selectedSong).value, Trim(name))] else [])
    {
      if selectedSong.None? {
        return;
      }
      var listName := if selectedListName == CustomListOption then Trim(newListName) else selectedListName;
      if listName == "" {
        return;
      }
      AddToPlaylist(selectedSong.value, listName);
      selectedSong := None;
      selectedListName := "";
      newListName := "";
    }
  }

  /** A signed-in user opens the add dialog for a song while owning one list,
      "Favorites", and confirms: the song is added to "Favorites" once, and
      the dialog's selection is cleared. */
  method AddToExistingListScenario(song: Song) returns (c: SearchComponent)
    ensures c.adds == [AddCall(song, "Favorites")]
    ensures c.selectedSong == None && c.selectedListName == "" && c.newListName == ""
  {
    c := new SearchComponent(Some("user-1"));
    c.OpenModal(song, ["Favorites"]);
    TrimUnpadded("Favorites");
    c.ConfirmAdd();
  }

  /** With 25 results, asking for page 3 changes nothing and searches
      nothing, while page 2 is taken and searched from offset 24. */
  method PageBoundaryScenario(reply: TracksPage) returns (c: SearchComponent)
    requires reply.total == 25
    ensures c.currentPage == 2
    ensures c.searches == [SearchCall("", 0, 12), SearchCall("", 24, 12)]
  {
    c := new SearchComponent(None);
    c.SearchTracks(Some(reply));
    c.ChangePage(3, None);
    c.ChangePage(2, None);
  }
}
