/** The catalog search adapter: a client-credentials grant (section 4.4 of
    RFC 6749) whose access token is cached in two fields until it expires, and
    a search request built from the query, the page offset and the page size.
    HTTP is not performed: every request the adapter would send is appended to
    a ghost log, and the token endpoint's answer and the clock are inputs. */
module SearchApi {
  import opened Domain
  import opened JsStrings

  /** The token endpoint's answer: the bearer token and its lifetime in
      seconds (`expires_in`, section 5.1 of RFC 6749). */
  datatype TokenResponse = TokenResponse(access_token: string, expires_in: int)

  /** An outgoing request: a form POST to the token endpoint, or a GET with
      query parameters. Headers, body and parameters are (key, value) lists in
      the order they are set. */
  datatype HttpRequest =
    | Post(url: string, headers: seq<(string, string)>, body: seq<(string, string)>)
    | Get(url: string, headers: seq<(string, string)>, params: seq<(string, string)>)

  const TokenUrl: string := "https://accounts.spotify.com/api/token"

  /** The cache test of getAccessToken: a truthy token, a truthy expiry
      instant, and a clock strictly before that instant. */
  predicate CachedTokenUsable(token: Option<string>, expiration: Option<int>, now: int)
  {
    && token.Some? && token.value != ""
    && expiration.Some? && expiration.value != 0
    && now < expiration.value
  }

  /** The expiry instant stored after an exchange, in milliseconds. */
  function ExpiryAt(arrival: int, expiresIn: int): int
  {
    arrival + expiresIn * 1000
  }

  /** The credential exchange: grant type client_credentials, authenticated
      with HTTP Basic over `clientId:clientSecret` encoded by `encode`. */
  function TokenRequest(clientId: string, clientSecret: string, encode: string -> string): HttpRequest
  {
    Post(TokenUrl,
         [("Authorization", "Basic " + encode(clientId + ":" + clientSecret)),
          ("Content-Type", "application/x-www-form-urlencoded")],
         [("grant_type", "client_credentials")])
  }

  /** The search parameters, in the order the source sets them. */
  function SearchParams(query: string, offset: int, limit: int): seq<(string, string)>
  {
    [("q", query), ("type", "track"), ("limit", IntToString(limit)), ("offset", IntToString(offset))]
  }

  /** `HttpParams.get`: the first value under `key`. */
  function Lookup(entries: seq<(string, string)>, key: string): Option<string>
  {
    if entries == [] then None
    else if entries[0].0 == key then Some(entries[0].1)
    else Lookup(entries[1..], key)
  }

  function Keys(entries: seq<(string, string)>): (ks: seq<string>)
    ensures |ks| == |entries| && forall i :: 0 <= i < |entries| ==> ks[i] == entries[i].0
  {
    if entries == [] then [] else [entries[0].0] + Keys(entries[1..])
  }

  /** The request carries exactly the keys q, type, limit and offset, and
      reading them back gives the query, "track", and the two numbers. */
  lemma SearchParamsReadBack(query: string, offset: int, limit: int)
    ensures Keys(SearchParams(query, offset, limit)) == ["q", "type", "limit", "offset"]
    ensures Lookup(SearchParams(query, offset, limit), "q") == Some(query)
    ensures Lookup(SearchParams(query, offset, limit), "type") == Some("track")
    ensures Lookup(SearchParams(query, offset, limit), "limit").Some?
         && ParseInt(Lookup(SearchParams(query, offset, limit), "limit").value) == Some(limit)
    ensures Lookup(SearchParams(query, offset, limit), "offset").Some?
         && ParseInt(Lookup(SearchParams(query, offset, limit), "offset").value) == Some(offset)
  {
    var p := SearchParams(query, offset, limit);
    assert Lookup(p, "limit") == Lookup(p[1..], "limit") == Lookup(p[2..], "limit");
    assert Lookup(p, "offset") == Lookup(p[1..], "offset") == Lookup(p[2..], "offset")
        == Lookup(p[3..], "offset");
    IntRoundTrip(limit);
    IntRoundTrip(offset);
  }

  /** A token stored after an exchange is reused exactly while the clock is
      before `arrival + expires_in * 1000`, provided the token is non-empty and
      that instant is not 0 (both tested for truthiness). */
  lemma ReuseWindow(tok: string, arrival: int, expiresIn: int, now: int)
    requires tok != "" && ExpiryAt(arrival, expiresIn) != 0
    ensures CachedTokenUsable(Some(tok), Some(ExpiryAt(arrival, expiresIn)), now)
        <==> now < arrival + expiresIn * 1000
  {
  }

  /** The adapter. The client id, secret and API base URL are the build-time
      environment; `encode` is the browser's `btoa` (Base64, section 4 of
      RFC 4648), taken as given. */
  class SearchAdapter {
    const clientId: string
    const clientSecret: string
    const apiUrl: string
    const encode: string -> string
    var token: Option<string>
    var tokenExpiration: Option<int>
    ghost var sent: seq<HttpRequest>

    constructor (clientId: string, clientSecret: string, apiUrl: string, encode: string -> string)
      ensures this.clientId == clientId && this.clientSecret == clientSecret
      ensures this.apiUrl == apiUrl && this.encode == encode
      ensures token == None && tokenExpiration == None && sent == []
    {
      this.clientId := clientId;
      this.clientSecret := clientSecret;
      this.apiUrl := apiUrl;
      this.encode := encode;
      token := None;
      tokenExpiration := None;
      sent := [];
    }

    /** getAccessToken. `now` is the clock at the cache test; `arrival` is the
        clock when the token response arrives; `response` is what the token
        endpoint answers if it is asked (None when the request fails). Reuses
        the cached token when it is usable; otherwise sends exactly one
        exchange, caches its result, or on a failed exchange keeps the cache
        and yields no token. */
    method GetAccessToken(now: int, arrival: int, response: Option<TokenResponse>)
      returns (t: Option<string>, exchanged: bool)
      modifies this`token, this`tokenExpiration, this`sent
      ensures exchanged <==> !CachedTokenUsable(old(token), old(tokenExpiration), now)
      ensures !exchanged ==>
                && t == old(token) && t.Some?
                && token == old(token) && tokenExpiration == old(tokenExpiration)
                && sent == old(sent)
      ensures exchanged ==> sent == old(sent) + [TokenRequest(clientId, clientSecret, encode)]
      ensures exchanged && response.Some? ==>
                && t == Some(response.value.access_token)
                && token == t
                && tokenExpiration == Some(ExpiryAt(arrival, response.value.expires_in))
      ensures exchanged && response.None? ==>
                t == None && token == old(token) && tokenExpiration == old(tokenExpiration)
    {
      if CachedTokenUsable(token, tokenExpiration, now) {
        return token, false;
      }
      sent := sent + [TokenRequest(clientId, clientSecret, encode)];
      exchanged := true;
      if response.None? {
        return None, exchanged;
      }
      token := Some(response.value.access_token);
      tokenExpiration := Some(arrival + response.value.expires_in * 1000);
      t := token;
    }

    /** searchSongs: obtains a token as above, then sends one search request
        authorised with that token; a failed exchange aborts the search. */
    method SearchSongs(query: string, now: int, arrival: int, response: Option<TokenResponse>,
                       offset: int := 0, limit: int := 10)
      returns (request: Option<HttpRequest>, exchanged: bool)
      modifies this`token, this`tokenExpiration, this`sent
      ensures exchanged <==> !CachedTokenUsable(old(token), old(tokenExpiration), now)
      ensures !exchanged ==> token == old(token) && tokenExpiration == old(tokenExpiration)
      ensures exchanged && response.Some? ==>
                && token == Some(response.value.access_token)
                && tokenExpiration == Some(ExpiryAt(arrival, response.value.expires_in))
      ensures request.None? <==> exchanged && response.None?
      ensures request.None? ==> token == old(token) && tokenExpiration == old(tokenExpiration)
      ensures request.Some? ==>
                && token.Some?
                && request.value == Get(apiUrl + "/search", [("Authorization", "Bearer " + token.value)],
                                        SearchParams(query, offset, limit))
      ensures sent == old(sent) + (if exchanged then [TokenRequest(clientId, clientSecret, encode)] else [])
                     + (if request.Some? then [request.value] else [])
    {
      var t;
      t, exchanged := GetAccessToken(now, arrival, response);
      if t.None? {
        return None, exchanged;
      }
      var get := Get(apiUrl + "/search", [("Authorization", "Bearer " + t.value)], SearchParams(query, offset, limit));
      sent := sent + [get];
      request := Some(get);
    }
  }

  /** A token with `expires_in = 3600` fetched at `t0` is reused at
      `t0 + 3 500 000` ms and exchanged again at `t0 + 3 600 000`; on a second
      adapter, it is exchanged again at `t0 + 3 700 000`. The first call on a
      fresh adapter always exchanges. */
  method TokenLifetimeScenario(t0: int, encode: string -> string)
    returns (exchanged0: bool, exchanged3500: bool, exchanged3600: bool,
             freshExchanged0: bool, exchanged3700: bool)
    requires t0 >= 0
    ensures exchanged0 && !exchanged3500 && exchanged3600
    ensures freshExchanged0 && exchanged3700
  {
    var response := Some(TokenResponse("tok", 3600));
    var a := new SearchAdapter("id", "secret", "https://api.spotify.com/v1", encode);
    var r;
    r, exchanged0 := a.SearchSongs("song", t0, t0, response);
    r, exchanged3500 := a.SearchSongs("song", t0 + 3_500_000, t0 + 3_500_000, response);
    r, exchanged3600 := a.SearchSongs("song", t0 + 3_600_000, t0 + 3_600_000, response);
    var b := new SearchAdapter("id", "secret", "https://api.spotify.com/v1", encode);
    r, freshExchanged0 := b.SearchSongs("song", t0, t0, response);
    r, exchanged3700 := b.SearchSongs("song", t0 + 3_700_000, t0 + 3_700_000, response);
  }
}
