# tap-translate-backend: the decision logic of `main.py`, in Dafny

The service looks up a song in the Spotify catalog, scrapes its lyrics from
Genius, and explains, translates, romanizes and speaks words of those lyrics.
Nearly all of it is HTTP plumbing and calls to outside services. This project
models the three parts of `main.py` that are logic of its own, and proves
properties about them:

- **Sentence truncation** (`Explain`, `explain.dfy`). `truncate_at_sentence_end`
  keeps a completion up to and including its last full stop. A text with no
  full stop is returned unchanged. Python's `str.rfind` is modelled as
  `Strings.RFind`.
- **Lyrics lookup** (`Lyrics`, `lyrics.dfy`). The decision `get_lyrics` makes
  once the network has answered. `search` maps the search query text to the
  Genius reply (status code and JSON `response` object). `fetch` maps a page
  URL to the texts of the page's lyric containers in document order. JSON
  keys are absent, `null` or present. `Resolve` gives one outcome of four:
  search failed, not found, found text, or raised. It raises when the body's
  `response` is `null`, because the second `.get` is then called on `None`.
  `GetLyrics` gives the exact string the source returns, or `None` when it
  raises. `"\n".join` is
  modelled as `Strings.JoinLines`, with `Strings.SplitLines` (Python's
  `split("\n")`) as its inverse.
- **Song list shaping** (`Songs`, `songs.dfy`). `get_songs` builds, in a loop,
  one record per catalog track: name, first artist, Spotify URL and the
  lyrics looked up for that name and artist. `Songs.GetSongs` is a method
  with that loop. The source raises at `track["artists"][0]` when a track has
  no artist, and it raises when that track's lyrics lookup raises. The model
  returns `Failure(MissingArtist(i))` or `Failure(LyricsRaised(i))` for the
  first such track `i`.

The code drops everything after the last full stop. So for the completion
`Love means deep affection. It is often used in romantic contexts` the
explanation is `Love means deep affection.`, and the unfinished second
sentence is lost (`ExplainExample.ExplainWordScenario`).

## Model

| member | source | states |
|---|---|---|
| `Strings.RFind` | main.py:77 | `rfind(".")` gives -1 exactly when there is no full stop; otherwise it gives an index holding one, with none after it |
| `Strings.RFindIsLast` | main.py:77 | any occurrence with no later occurrence is the index `rfind` reports |
| `Strings.JoinLines` | main.py:69 | `"\n".join` of no parts is the empty string; otherwise the text starts with the first part |
| `Strings.JoinAppend` | main.py:69 | joining one more container adds a newline and that container's text after the text so far |
| `Strings.JoinSplit` | main.py:69 | splitting a text at newlines and joining it again gives back the text |
| `Strings.SplitJoin` | main.py:69 | at least one part, none holding a newline: splitting the join gives back the parts, in order |
| `Strings.SplitAround` | main.py:69 | splitting two texts joined by a newline gives the pieces of the first, then those of the second |
| `Strings.SplitJoinEach` | main.py:69 | for at least one part, splitting the join gives each part's own pieces, part after part, for any parts |
| `Explain.TruncateAtSentenceEnd` | main.py:76-80 | the result is a prefix of the input; the dropped suffix has no full stop; the result ends in a full stop exactly when the input has one; with no full stop the input comes back unchanged |
| `Explain.SentenceCutUnique` | main.py:76-80 | at most one string is a prefix that drops no full stop and ends at one (or is the whole text if there is none) |
| `Explain.TruncateIsSentenceCut` | main.py:76-80 | a string is such a cut of the text if and only if it is the truncation |
| `Explain.TruncateIdempotent` | main.py:76-80 | truncating an already truncated text changes nothing |
| `Explain.TruncateDropsUnfinishedSentence` | main.py:76-80 | finished sentences ending in a full stop, followed by text with no full stop, are cut back to the finished sentences |
| `ExplainExample.ExplainWordScenario` | main.py:91 | the completion `Love means deep affection. It is often used in romantic contexts` becomes `Love means deep affection.` |
| `Lyrics.SearchQuery` | main.py:51 | the query is the song name, one space, then the artist name |
| `Lyrics.HitsOf` | main.py:57 | an absent `response` gives no hits; a `null` one raises (`None`); absent or `null` `hits` give no hits; otherwise the hits list |
| `Lyrics.Resolve` | main.py:54-69 | a non-200 status is a failed search, whatever the body; status 200 with a `null` `response` raises; status 200 with no hits is not found; otherwise the found text is the containers of the first hit's page joined by newlines |
| `Lyrics.Render` | main.py:55-71 | the outcome's result: exactly the failure message, `"Lyrics not found"` or the found text; nothing when the lookup raises |
| `Lyrics.GetLyrics` | main.py:46-71 | gives `"Error: Failed to search Genius API"` for a non-200 search reply, raises for a `null` `response`, gives `"Lyrics not found"` for status 200 without hits, and otherwise the first hit's container texts joined by `"\n"`; the reply searched is the one for query `name + " " + artist` |
| `Lyrics.NullHitsNotFound` | main.py:57-59 | a `hits` key holding `null` counts as no hits: not found |
| `Lyrics.FailureAndNotFoundDistinct` | main.py:54-59 | the failed-search string differs from the not-found string |
| `Lyrics.NoPageWithoutHit` | main.py:54-65 | unless the search succeeds and names a song, the outcome does not depend on any page |
| `Lyrics.OnlyFirstHitUsed` | main.py:62-69 | two replies with the same status and the same first hit give the same outcome, whatever the other hits are |
| `Lyrics.NoContainersFoundEmpty` | main.py:68-69 | a page without lyric containers gives found lyrics that are the empty string |
| `Lyrics.FoundTextSplitsPerContainer` | main.py:68-69 | for at least one container, splitting the found text at newlines gives each container's lines, container after container |
| `Lyrics.FoundTextKeepsContainers` | main.py:68-69 | if no container text holds a newline, splitting the found text at newlines gives back the containers in document order; `get_text("\n")` puts newlines inside most real containers, so this is the special case of the row above |
| `Lyrics.StringResultConflates` | main.py:55-71 | found lyrics that read exactly like `"Lyrics not found"` or like the failure message return the same string as that outcome |
| `Songs.GetSongs` | main.py:182-191 | succeeds exactly when every track has an artist and no track's lyrics lookup raises; otherwise it fails at the first track where either happens, as missing artist exactly when that track has none; on success it gives one record per track, in order, with name, `artists[0].name` and URL copied from the track and lyrics from `GetLyrics` on that name and artist; no tracks give an empty list |

## Left out

- HTTP transport: the Genius search request and the page request (main.py:52, 65) are network calls. Their replies are the `search` and `fetch` inputs. These inputs are total functions, so the model does not capture `requests.get` raising (a connection error, say). Neither call sets a timeout, so a request can wait without bound; the model does not capture that either.
- HTML parsing: BeautifulSoup's `find_all` and `get_text("\n")` (main.py:66-68) are a foreign library. The container texts are the input `fetch` returns.
- `response.json()` failing on a body that is not JSON, and `hits[0]` lacking `result` or `url`: the model assumes a body that is JSON and a well-formed hit. Absent and `null` `response` and `hits` keys are modelled, including the raise on a `null` `response`.
- `print(lyrics)` (main.py:70) is console output and is not modelled.
- Spotify search (main.py:180) is an outside client. Its track items are the `items` input. Its `limit=1` is not assumed: `GetSongs` handles any number of items. A missing `name` or `external_urls["spotify"]` key is not modelled.
- `explain_word` and `analyze_song_comprehensive` (main.py:82-152) are OpenAI calls with fixed prompts. Only the truncation of the completion (line 91) is modelled. The `json.loads` fallback (149-152) wraps a library parser and is not modelled.
- Google Translate (main.py:165), `Romanizer` (main.py:173) and gTTS audio (main.py:196-203) are library wrappers with no logic of their own.
- Environment and credential setup, CORS middleware and the FastAPI routes (main.py:16-44, 74) are configuration.
- Python `str` is a sequence of code points; the model uses Dafny `string` (`seq<char>`) with no encoding step.
