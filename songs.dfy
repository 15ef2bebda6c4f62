/**
 * Song discovery, `get_songs` (main.py:176-191): one record per track item
 * of the catalog search, each carrying the lyrics looked up for that track.
 */
module Songs {
  import opened Wrappers
  import opened Lyrics

  /** An entry of `track["artists"]`: only its `name` is read. */
  datatype Artist = Artist(name: string)

  /** A catalog track item: `name`, `artists`, `external_urls["spotify"]`. */
  datatype Track = Track(name: string, artists: seq<Artist>, spotifyUrl: string)

  /** One element of the `songs` list in the response. */
  datatype Song = Song(name: string, artist: string, url: string, lyrics: string)

  /**
   * Why the request fails at track `index`: `track["artists"][0]` raises
   * when it lists no artist, or the lyrics lookup for it raises.
   */
  datatype ShapeError = MissingArtist(index: nat) | LyricsRaised(index: nat)

  /** The processing of track `t` raises. */
  predicate TrackRaises(t: Track, search: string -> SearchResponse, fetch: string -> seq<string>)
  {
    t.artists == [] || GetLyrics(t.name, t.artists[0].name, search, fetch).None?
  }

  /**
   * The loop of `get_songs` over the track items of the catalog reply,
   * with the lyrics replies as inputs.
   */
  method GetSongs(items: seq<Track>, search: string -> SearchResponse,
                  fetch: string -> seq<string>)
    returns (r: Result<seq<Song>, ShapeError>)
    ensures items == [] ==> r == Success([])
    ensures r.Success? <==> forall i :: 0 <= i < |items| ==> !TrackRaises(items[i], search, fetch)
    ensures r.Failure? ==>
      && r.error.index < |items|
      && TrackRaises(items[r.error.index], search, fetch)
      && (r.error.MissingArtist? <==> items[r.error.index].artists == [])
      && forall j :: 0 <= j < r.error.index ==> !TrackRaises(items[j], search, fetch)
    ensures r.Success? ==>
      && |r.value| == |items|
      && forall i :: 0 <= i < |items| ==>
           var t := items[i];
           r.value[i] == Song(t.name, t.artists[0].name, t.spotifyUrl,
                              GetLyrics(t.name, t.artists[0].name, search, fetch).value)
  {
    var songs: seq<Song> := [];
    var i := 0;
    while i < |items|
      invariant 0 <= i <= |items|
      invariant |songs| == i
      invariant forall j :: 0 <= j < i ==> !TrackRaises(items[j], search, fetch)
      invariant forall j :: 0 <= j < i ==>
        var t := items[j];
        songs[j] == Song(t.name, t.artists[0].name, t.spotifyUrl,
                         GetLyrics(t.name, t.artists[0].name, search, fetch).value)
    {
      var track := items[i];
      var name := track.name;
      if |track.artists| == 0 {
        return Failure(MissingArtist(i));
      }
      var artist := track.artists[0].name;
      var url := track.spotifyUrl;
      var lyrics := GetLyrics(name, artist, search, fetch);
      if lyrics.None? {
        return Failure(LyricsRaised(i));
      }
      songs := songs + [Song(name, artist, url, lyrics.value)];
      i := i + 1;
    }
    return Success(songs);
  }
}
