/**
 * The lyrics lookup of `get_lyrics` (main.py:46-71) with its two network
 * calls turned into inputs. `search` maps the query text sent to the Genius
 * search endpoint to the response that comes back; `fetch` maps a song page
 * URL to the texts of that page's lyric containers
 * (`div[data-lyrics-container=true]`, each read with `get_text("\n")`), in
 * document order.
 */
module Lyrics {
  import opened Wrappers
  import opened Strings

  /** A key of a JSON object: absent, present with `null`, or present with a value. */
  datatype Field<+T> = Absent | Null | Present(value: T)

  /** One entry of `response.hits`: only `result.url` is read. */
  datatype Hit = Hit(url: string)

  /** The `response` object of the search body and its `hits` key. */
  datatype SearchPayload = SearchPayload(hits: Field<seq<Hit>>)

  /** The search reply: its status code and its JSON body's `response` key. */
  datatype SearchResponse = SearchResponse(status: int, response: Field<SearchPayload>)

  /**
   * The outcomes the lookup can reach, kept apart; the source maps the first
   * three onto one string and raises on the last.
   */
  datatype LyricsOutcome = SearchFailed | NotFound | Found(text: string) | Raised

  const SearchFailedMessage: string := "Error: Failed to search Genius API"
  const NotFoundMessage: string := "Lyrics not found"

  /** The `q` parameter of the search request: title, one space, artist. */
  function SearchQuery(songName: string, artistName: string): (q: string)
    ensures |q| == |songName| + 1 + |artistName|
    ensures q[..|songName|] == songName && q[|songName|] == ' '
    ensures q[|songName| + 1..] == artistName
  {
    songName + " " + artistName
  }

  /**
   * `response.json().get("response", {}).get("hits", [])`. An absent
   * `response` reads as `{}`, so as no hits. A `null` one makes the second
   * `get` raise: `None` here. An absent or `null` `hits` reads as no hits,
   * since `not None` holds just as `not []` does.
   */
  function HitsOf(resp: SearchResponse): (r: Option<seq<Hit>>)
    ensures r.None? <==> resp.response.Null?
    ensures resp.response.Absent? ==> r == Some([])
    ensures resp.response.Present? && !resp.response.value.hits.Present? ==> r == Some([])
    ensures resp.response.Present? && resp.response.value.hits.Present? ==>
      r == Some(resp.response.value.hits.value)
  {
    match resp.response
    case Absent => Some([])
    case Null => None
    case Present(payload) =>
      match payload.hits
      case Present(hits) => Some(hits)
      case _ => Some([])
  }

  /** The reply names at least one song. */
  predicate HasHit(resp: SearchResponse)
  {
    HitsOf(resp).Some? && HitsOf(resp).value != []
  }

  /** The decision of `get_lyrics` on the search reply, as an outcome. */
  function Resolve(resp: SearchResponse, fetch: string -> seq<string>): (o: LyricsOutcome)
    ensures o.SearchFailed? <==> resp.status != 200
    ensures o.Raised? <==> resp.status == 200 && resp.response.Null?
    ensures o.NotFound? <==> resp.status == 200 && HitsOf(resp) == Some([])
    ensures o.Found? <==> resp.status == 200 && HasHit(resp)
    ensures o.Found? ==> o.text == JoinLines(fetch(HitsOf(resp).value[0].url))
  {
    if resp.status != 200 then SearchFailed
    else
      match HitsOf(resp)
      case None => Raised
      case Some(hits) =>
        if |hits| == 0 then NotFound
        else Found(JoinLines(fetch(hits[0].url)))
  }

  /** What `get_lyrics` returns for an outcome; `None` when it raises. */
  function Render(o: LyricsOutcome): (r: Option<string>)
    ensures r.None? <==> o.Raised?
    ensures o.Found? ==> r == Some(o.text)
    ensures o.SearchFailed? ==> r == Some(SearchFailedMessage)
    ensures o.NotFound? ==> r == Some(NotFoundMessage)
  {
    match o
    case SearchFailed => Some(SearchFailedMessage)
    case NotFound => Some(NotFoundMessage)
    case Found(text) => Some(text)
    case Raised => None
  }

  /**
   * `get_lyrics(song_name, artist_name)`, with the network replies as
   * inputs; `None` when it raises.
   */
  function GetLyrics(songName: string, artistName: string,
                     search: string -> SearchResponse, fetch: string -> seq<string>): (r: Option<string>)
    ensures var resp := search(SearchQuery(songName, artistName));
      && (resp.status != 200 ==> r == Some(SearchFailedMessage))
      && (resp.status == 200 && resp.response.Null? ==> r == None)
      && (resp.status == 200 && HitsOf(resp) == Some([]) ==> r == Some(NotFoundMessage))
      && (resp.status == 200 && HasHit(resp) ==>
            r == Some(JoinLines(fetch(HitsOf(resp).value[0].url))))
  {
    Render(Resolve(search(SearchQuery(songName, artistName)), fetch))
  }

  /** A failed search and an empty hit list give different strings. */
  lemma FailureAndNotFoundDistinct()
    ensures Render(SearchFailed) != Render(NotFound)
  {
  }

  /** A `hits` key that is `null` is read like an empty list: not found. */
  lemma NullHitsNotFound(fetch: string -> seq<string>)
    ensures Resolve(SearchResponse(200, Present(SearchPayload(Null))), fetch) == NotFound
  {
  }

  /**
   * Unless the search names a song, no page is consulted: the outcome is
   * the same whatever pages the web would serve.
   */
  lemma NoPageWithoutHit(resp: SearchResponse, fetch1: string -> seq<string>,
                         fetch2: string -> seq<string>)
    requires resp.status != 200 || !HasHit(resp)
    ensures Resolve(resp, fetch1) == Resolve(resp, fetch2)
  {
  }

  /** Only the first hit matters: replies that agree on it give the same outcome. */
  lemma OnlyFirstHitUsed(resp1: SearchResponse, resp2: SearchResponse,
                         fetch: string -> seq<string>)
    requires resp1.status == resp2.status
    requires HasHit(resp1) && HasHit(resp2)
    requires HitsOf(resp1).value[0] == HitsOf(resp2).value[0]
    ensures Resolve(resp1, fetch) == Resolve(resp2, fetch)
  {
  }

  /** A page without lyric containers yields found, empty lyrics. */
  lemma NoContainersFoundEmpty(resp: SearchResponse, fetch: string -> seq<string>)
    requires resp.status == 200 && HasHit(resp)
    requires fetch(HitsOf(resp).value[0].url) == []
    ensures Resolve(resp, fetch) == Found("")
  {
  }

  /**
   * The found text keeps the containers in document order: splitting it at
   * newlines gives the lines of the first container, then those of the
   * second, and so on. The container boundaries themselves are not
   * recoverable once a container has lines of its own.
   */
  lemma FoundTextSplitsPerContainer(resp: SearchResponse, fetch: string -> seq<string>)
    requires resp.status == 200 && HasHit(resp)
    requires fetch(HitsOf(resp).value[0].url) != []
    ensures SplitLines(Resolve(resp, fetch).text) == SplitEach(fetch(HitsOf(resp).value[0].url))
  {
    SplitJoinEach(fetch(HitsOf(resp).value[0].url));
  }

  /**
   * When no container holds a newline of its own, splitting the found text
   * at newlines gives back the containers one by one.
   */
  lemma FoundTextKeepsContainers(resp: SearchResponse, fetch: string -> seq<string>)
    requires resp.status == 200 && HasHit(resp)
    requires var containers := fetch(HitsOf(resp).value[0].url);
      |containers| > 0 && forall i :: 0 <= i < |containers| ==> '\n' !in containers[i]
    ensures SplitLines(Resolve(resp, fetch).text) == fetch(HitsOf(resp).value[0].url)
  {
    SplitJoin(fetch(HitsOf(resp).value[0].url));
  }

  /**
   * The string result cannot tell the outcomes apart in every case: lyrics
   * that read exactly like one of the two messages are indistinguishable
   * from that message.
   */
  lemma StringResultConflates()
    ensures Render(Found(NotFoundMessage)) == Render(NotFound)
    ensures Render(Found(SearchFailedMessage)) == Render(SearchFailed)
  {
  }
}
