# reddify, modelled in Dafny

reddify turns the comments of a Reddit thread into a Spotify playlist. It
treats every comment line as a possible song title, searches Spotify for each
one, and adds the tracks it finds to a new playlist named after the thread.
The repository has three copies of this pipeline:

- `main.py`: a FastAPI server. A browser sends a thread URL and a market over
  a websocket, and the server reports its progress as JSON messages on the
  same socket. It also handles the OAuth `/callback` and keeps a
  `ConnectionManager` list of open sockets.
- `app.py`: a Flask app. Its `/create/playlist` form takes a thread URL and
  fills a private playlist.
- `run.py`: a command-line script. It takes the URL from `sys.argv` and fills
  a public playlist.

The model makes every call to Reddit or Spotify a parameter. A thread is a
function from a URL to its title and comments. A search is a function from
request parameters to result items. In `main.py`, where each call sits in a
retry loop, a call is an oracle from (item number, attempt number) to what
that attempt did: it returned a response, raised a retryable `ConnectError`
or `ReadTimeout`, or raised something else.

The modules follow the program's steps:

- `Text`: the Python string operations the pipeline uses.
  - `str.isspace`, `\S` and the `str.splitlines` boundaries are modelled with
    Python 3's exact character lists.
  - Also `str.split` on one character, `str.join`, `s[:n]`, `str.replace`,
    and `re.sub(r"http\S+", "", s)`.
- `Tracking`: `re.sub(r"\?utm_source=.*", "", url)`.
- `Extraction`: comment lines to candidates.
  - `main.py`'s nested loops: author filter, URL removal, then emoji removal,
    then the tests.
  - `app.py`/`run.py`'s comprehension chain: the `"["` test comes before
    emoji removal.
- `Spotify`: the search query and parameters, the market default, and picking
  the first result item.
- `Retry`: the `for _ in range(MAX_RETRIES) … else` loop.
- `Dedup`: `list(set(…))` and `list(dict.fromkeys(…))`.
- `Batching`: the stepped loops that add slices of 100 ids, with or without
  `main.py`'s cap of 10000.
- `Callback`: the `state` check of `/callback`.
- `Connections`: `ConnectionManager` as a class over a sequence of websocket
  objects, each with its outbox of messages.
- `Session`: one pass of `websocket_endpoint`, imperative, proved against the
  functions that say which requests and which messages it produces.
- `ThreadUrl`: the `re.match` URL check of `app.py` and `run.py`.
- `Title`: the stopword-filtered playlist name.
- `Client`: what `app.py` and `run.py` share.
- `FlaskApp`: the POST branch of `app.py`'s `create_playlist`.
- `Cli`: `run.py`'s `get_reddit_thread`, `find_and_add_songs_to_playlist` and
  `main`.

Two facts about `main.py` shape its contracts:

- `main.py` removes repeated track URIs with `list(set(…))`, whose order
  Python does not fix; `app.py` and `run.py` use `list(dict.fromkeys(…))`.
  So `Session.Finish` promises only that the URIs have no repeats and are
  those of the tracks found, while `Client.TrackIds` also keeps first-found
  order.
- `main.py` sends no failure message and no close code: an exception that
  escapes the retry loops ends the pass. The model records this as
  `raised`.

## Model

| member | source | states |
|---|---|---|
| Tracking.StripTrackingOneLine | main.py:221 | On a one-line URL, removing `?utm_source=.*` cuts off everything from the first marker and keeps everything before it |
| Tracking.StripTrackingIdempotentOnLine | main.py:221 | Cleaning a one-line URL a second time changes nothing |
| Tracking.StripTrackingWithoutMarker | main.py:221 | A URL without the marker is left as it is |
| Tracking.StripTracking | main.py:221 | `re.sub(r"\?utm_source=.*", "", url)`: never lengthens the URL; `Tracking.StripTrackingOneLine`, `Tracking.StripTrackingIdempotentOnLine` and `Tracking.StripTrackingWithoutMarker` state what it keeps |
| Callback.CheckCallback | main.py:130-135 | The handler proceeds exactly when `code` and `state` are present and `state` equals the stored cookie; otherwise it names the first missing parameter, or reports a state mismatch |
| Connections.RemoveFirst | main.py:202-203 | `list.remove` takes out one occurrence: the length drops by one, the multiset loses exactly that element, and the element remains exactly when it occurred again after its first occurrence |
| Connections.RemoveFirstSplits | main.py:202-203 | Removing cuts out the first occurrence and keeps what comes before and after it in order |
| Connections.ConnectThenDisconnect | main.py:198-203 | Connecting a socket that was not listed and then disconnecting it restores the list |
| Connections.DisconnectEarlier | main.py:198-203 | Disconnecting an earlier socket leaves a newcomer last in the list |
| Connections.ConnectionManager.Connect | main.py:198-200 | The socket is accepted and appended; its outbox is untouched |
| Connections.ConnectionManager.Disconnect | main.py:202-203 | A listed socket's first occurrence is removed; an unlisted one leaves the list unchanged and is reported (where Python raises `ValueError`) |
| Connections.ConnectionManager.SendPersonalMessage | main.py:205-206 | Exactly one message is appended to that socket's outbox |
| Connections.WebSocket.Accept | main.py:199 | `websocket.accept()` marks the socket accepted and sends nothing |
| Connections.WebSocket.SendText | main.py:206 | `websocket.send_text` appends exactly that message to the socket's outbox |
| Extraction.ServerCandidatesConcat | main.py:270-277 | Candidates come in comment order: those of two runs of comments are the first run's followed by the second's |
| Extraction.ServerLinesConcat | main.py:272-277 | Within a comment, candidates come in line order |
| Extraction.ServerSkipsAutomatedComments | main.py:271 | A comment with no author, or written by `AutoModerator` or `Reddit`, contributes nothing wherever it stands |
| Extraction.ServerLinesOne | main.py:273-277 | A single line becomes a candidate, in its scrubbed form, exactly when that form is not empty, not `"["` and not whitespace-only |
| Extraction.ServerCandidatesOne | main.py:270-272 | A single comment contributes the candidates of its `splitlines()` lines exactly when a person wrote it, and nothing otherwise |
| Extraction.ServerKeepsWorthwhileLine | main.py:273-277 | A line that passes the test once scrubbed is a candidate, in its place between the candidates of the lines before and after it |
| Extraction.ServerKeepsPersonComment | main.py:270-277 | A person's comment contributes all its lines' candidates, in its place between those of the comments before and after it |
| Extraction.ServerCandidates | main.py:270-277 | No candidate is empty, whitespace-only or `"["`, judged after both URL and emoji removal; `Extraction.ServerCandidatesOne` and `Extraction.ServerCandidatesConcat` fix it on every input |
| Extraction.ServerLinesFromInput | main.py:273-277 | Every candidate is some input line with URLs and then emoji removed |
| Extraction.ServerLines | main.py:272-277 | The candidates of one comment's lines: every one passes the test of main.py:276 after URL and emoji removal; `Extraction.ServerLinesOne` and `Extraction.ServerLinesConcat` fix it on every input, and `Extraction.ServerKeepsWorthwhileLine` shows that no passing line is lost |
| Session.ExtractLines | main.py:267-277 | The nested loops build exactly the candidate list that `Extraction.ServerCandidates` defines |
| Session.ExtractCommentLines | main.py:273-277 | The inner loop over one comment keeps exactly that comment's candidates |
| Text.StripUrlsSpace | main.py:274 | Whitespace is never part of an `http\S+` match, so URL stripping works word by word and keeps the whitespace |
| Text.StripUrlsWord | main.py:274 | Inside one whitespace-free word, stripping keeps the text before the first `http` followed by at least one more character, and drops the rest of the word |
| Text.StripUrlsNoMatch | main.py:274 | Text in which `http\S+` matches nowhere is unchanged |
| Text.UrlRunLength | main.py:274 | Where `http\S+` matches, the whitespace-free run it consumes is at least five characters long |
| Text.StripUrls | main.py:274 | `re.sub(r"http\S+", "", line)`: never lengthens the text; `Text.StripUrlsSpace`, `Text.StripUrlsWord` and `Text.StripUrlsNoMatch` state what it removes and what it keeps |
| Spotify.Query | main.py:281 | The query is the prefix of the line of length `min(len, 100)` |
| Spotify.SearchFor | main.py:280-285 | A search asks for one track in the given market, with a query that is a prefix of the line of at most 100 characters |
| Spotify.MarketOrDefault | main.py:284 | An empty market becomes `"US"`; any other market is kept |
| Spotify.TopTrack | main.py:298-301 | A track is found exactly when `tracks` is present with non-empty `items`, and it is the first item |
| Retry.AttemptsMadeSpec | main.py:286-296 | The loop makes 1 to 5 attempts. Every attempt but the last was retryable. It is exhausted exactly when 5 retryable attempts were made; otherwise the last attempt decides the outcome |
| Retry.ExhaustedIffAllRetryable | main.py:286-296 | An item is skipped exactly when all 5 attempts raised `ConnectError` or `ReadTimeout` |
| Retry.ResponseSettles | main.py:286-293 | The first response ends the loop, whatever its status code |
| Retry.WithRetries | main.py:286-296 | The imperative loop yields the outcome and attempt count that `Retry.AttemptsMadeSpec` describes |
| Retry.Outcome | main.py:286-296 | The outcome of the for/else retry loop: the first attempt that is not retryable, or exhaustion after 5; `Retry.AttemptsMadeSpec` and `Retry.ExhaustedIffAllRetryable` characterise it |
| Retry.AttemptsMade | main.py:286-296 | The number of attempts the retry loop makes, between 1 and 5 by `Retry.AttemptsMadeSpec` |
| Session.SearchRequestsAreQueries | main.py:278-296 | Every search request is the search for one candidate (its first 100 characters, type `track`, limit 1, market or `"US"`) |
| Session.SearchRequestCount | main.py:286-296 | Each candidate is searched at most 5 times, so there are at most 5 requests per candidate |
| Session.FoundTracksAreTopResults | main.py:297-302 | Every track kept is the first item of the response some candidate's search settled on; there are no more tracks than candidates |
| Session.ExhaustedCandidateIsSkipped | main.py:294-296 | A candidate whose 5 attempts all fail retryably adds no track and no message, issues 5 identical requests, and the loop goes on |
| Session.ResponseWithoutItemsAddsNothing | main.py:297-308 | A response without `tracks` or without items (even one with an error status) ends the retries and adds nothing |
| Session.SettledWithItemsAddsTrack | main.py:297-302 | A response with items, after some retryable failures, appends its first item to the tracks in this candidate's place, issues one request per attempt and lets the loop go on |
| Session.SearchStopsAfterRaise | main.py:286-290 | After an exception other than the retryable two, no later candidate is searched |
| Session.SearchLine | main.py:279-302 | One iteration: the retried search for one line and the track it found, if any |
| Session.SearchPhase | main.py:278-308 | The requests, the tracks and whether an exception escaped after the first `n` candidates; `Session.SettledWithItemsAddsTrack`, `Session.ResponseWithoutItemsAddsNothing`, `Session.ExhaustedCandidateIsSkipped` and `Session.SearchStopsAfterRaise` give each case of one step, `Session.SearchRequestsAreQueries`, `Session.SearchRequestCount` and `Session.FoundTracksAreTopResults` the whole phase, and `Session.FindSongs` is proved equal to it |
| Session.FindSongs | main.py:278-308 | The search loop produces exactly the requests and tracks that `Session.SearchPhase` defines, and it sends one `"<name> by <artist>"` message per track, in the order the tracks were found |
| Dedup.SetToList | main.py:314 | `list(set(…))` has no repeats and holds exactly the input's elements (its order is left open) |
| Session.PlanIsCappedPrefix | main.py:316-318 | The batches concatenate to the first `min(n, 10000)` URIs. Each batch holds 1 to 100 URIs, and their count is the rounded-up quotient. URIs without repeats give batches without repeats |
| Session.AddRequestsCarryBatches | main.py:316-329 | Every add request carries one planned batch, with at most 5 attempts per batch |
| Session.AddRequestsCoverBatches | main.py:316-329 | Unless an exception escaped, every batch was sent at least once, exhausted ones included |
| Session.AddStopsAfterRaise | main.py:320-326 | After an escaped exception, no later batch is sent |
| Session.AddPhase | main.py:316-329 | The add requests and whether an exception escaped after the first `n` batches; `Session.AddRequestsCarryBatches`, `Session.AddRequestsCoverBatches` and `Session.AddStopsAfterRaise` state its properties, and `Session.AddToPlaylist` is proved equal to it |
| Session.AddToPlaylist | main.py:316-329 | The stepped loop issues exactly the requests that `Session.AddPhase` defines over the capped plan of batches |
| Session.Open | main.py:219-265 | The URL is cleaned and the thread fetched. The fetching status, each top-level comment, then the creating and created statuses are sent in order. `/me` and the playlist creation are requested |
| Session.SearchThread | main.py:267-308 | The thread's candidates are searched; the outbox grows by one message per track found |
| Session.Finish | main.py:310-335 | The URIs have no repeats and are exactly those of the tracks found. The add loop runs over them. The adding status is sent, then the final message unless an exception escaped |
| Session.HandleSession | main.py:219-335 | One pass issues exactly the requests and sends exactly the messages of `Session.SessionRequests` / `Session.SessionMessages`, and completes exactly when neither loop let an exception escape |
| Session.SessionRequests | main.py:219-329 | The requests of one pass: the opening `/me` and create calls, the search phase, and the add phase only when no search raised |
| Session.SessionMessages | main.py:223-335 | The messages of one pass: the opening statuses and comments, one message per track found, then the adding status and the final message only when nothing raised |
| Session.Endpoint | main.py:215-338 | The socket is accepted and listed. After a completed pass and the client's disconnect it is removed again; otherwise it stays listed |
| Seqs.FilterConcat | app.py:84-92 | Every stage of the comprehension chain filters element by element, so filtering distributes over concatenation |
| Extraction.ClientChainIsLineByLine | app.py:84-92 | The chain of comprehension stages equals deciding each line on its own |
| Extraction.ClientChainConcat | app.py:82-92 | Candidates come in comment and line order: the chain distributes over concatenation |
| Extraction.ClientLines | app.py:84-92 | No surviving candidate is empty or whitespace-only |
| Extraction.ClientChain | app.py:84-92 | The comprehension chain stage by stage; `Extraction.ClientChainIsLineByLine` proves it equal to deciding each line with `Extraction.ClientLine`, and `Extraction.ClientChainConcat` that it keeps order |
| Extraction.ClientLine | app.py:84-92 | The fate of one line in the chain: a kept candidate is never empty or whitespace-only |
| Extraction.BracketTestPrecedesEmojiRemoval | app.py:86-89 | A line that becomes `"["` only through emoji removal survives in `app.py`/`run.py` but is dropped by `main.py` |
| Extraction.ClientAndServerAgreeOnLine | app.py:84-92 | For an emoji remover that leaves `""` and `"["` alone, a line yields the same candidates in `app.py`/`run.py` as in `main.py` exactly when it does not become `"["` through emoji removal alone (URL removal leaves something other than `"["`, emoji removal then gives `"["`) |
| FlaskApp.Candidates | app.py:82-92 | No candidate is empty or whitespace-only |
| FlaskApp.CandidatesConcat | app.py:82-92 | There is no author filter and comment order is kept: candidates of two runs of comments concatenate |
| Text.SplitLinesKeepsText | app.py:82-83 | The lines of `splitlines()` are the text with exactly its line boundaries removed |
| Text.SplitLines | app.py:82-83 | The empty text has no lines, and no line holds a line boundary |
| Spotify.EnvironmentMarket | app.py:93-94 | `SPOTIFY_MARKET` is used as set, even when empty; when it is unset the market is `"US"` |
| Client.Searches | app.py:93-94 | One search per candidate, in candidate order |
| Spotify.SongIdsFromFirstItems | app.py:95-96 | The ids are exactly the first-item ids of the non-empty results |
| Spotify.SongIdsConcat | app.py:95-96 | Ids come in result order |
| Spotify.SongIds | app.py:95-96 | At most one id per result; `Spotify.SongIdsFromFirstItems` states which ids |
| Dedup.FromKeys | app.py:97 | `dict.fromkeys` keeps each element once, and only elements of the input |
| Dedup.FromKeysKeepsFirstOccurrenceOrder | app.py:97 | Kept elements are in the order of their first occurrences |
| Dedup.FromKeysOfDistinct | app.py:97 | A list without repeats is unchanged |
| Client.TrackIdsAreFound | app.py:93-97 | The ids to add are exactly those some candidate's search found first, each once, in first-found order |
| Client.TrackIds | app.py:93-97 | The ids to add hold no repeats; `Client.TrackIdsAreFound` states which ids and in what order |
| Batching.SlicesCover | app.py:98-100 | The slices taken for `range(0, n, 100)` concatenate to the list, each holding 1 to 100 ids |
| Batching.SlicesFromSpec | app.py:98-100 | The slices from any multiple of 100 have the right count and size, and concatenate to the covered range |
| Batching.AddInBatches | app.py:98-100 | The stepped loop issues, in order, add calls whose id lists concatenate to all the ids (no cap) |
| FlaskApp.FindAndAddSongs | app.py:81-100 | The add calls carry every id to add, each once, in first-found order, 1 to 100 per call |
| ThreadUrl.AcceptsThreadUrl | app.py:109-110 | Every URL made of an optional scheme, an optional `www.`, `reddit.com/r/`, a non-empty `[\w-]` subreddit, `/comments/`, a non-empty `[\w-]` id and anything at all is accepted |
| ThreadUrl.AcceptedHasThreadForm | app.py:109-110 | Conversely, every accepted URL has that form |
| ThreadUrl.MatchIgnoresSuffix | app.py:109-110 | The match is not anchored at the end: appending anything to an accepted URL keeps it accepted |
| ThreadUrl.Matches | app.py:109-110 | `re.match` of the thread pattern; `ThreadUrl.AcceptsThreadUrl` and `ThreadUrl.AcceptedHasThreadForm` prove it accepts exactly the URLs that start with the thread form |
| FlaskApp.CreatePlaylist | app.py:107-126 | An invalid URL is refused exactly when it does not match. Otherwise a private playlist is requested for the current user, with the title built from the thread and the description prefix plus URL. The thread's songs are added and the result redirects to the playlist's URL |
| Title.NonStopWords | app.py:77 | The kept tokens are exactly the non-stopword tokens |
| Title.NonStopWordsConcat | app.py:77 | The filter keeps the tokens' order |
| Title.DropsStopWord | app.py:77 | A stopword is dropped wherever it stands and nothing else moves |
| Title.KeepsNonStopWords | app.py:77 | Tokens without stopwords all stay, in order |
| Title.Normalised | app.py:74 | The text handed to the tokenizer holds no `?` |
| Title.TitleWords | app.py:74-78 | Splitting the name on spaces gives back the non-stopword tokens (when at least one survives and none holds a space) |
| Title.TitleHasNoQuestionMark | app.py:74-78 | The name holds no `?` for every tokenizer that introduces no `?` into text without one (rewriting `"` as nltk does is allowed) |
| Title.PlaylistTitle | app.py:72-78 | The lowercased title without `?`, tokenized, its stopwords dropped and the rest joined by spaces; `Title.TitleWords` and `Title.TitleHasNoQuestionMark` state what the name holds |
| Text.JoinSplit | run.py:45 | Joining the parts of a split with the same separator gives the text back |
| Text.SplitJoin | run.py:45 | Splitting a join gives the parts back when no part holds the separator |
| Text.Join | run.py:45 | `sep.join(parts)`; `Text.JoinSplit` and `Text.SplitJoin` prove it undoes and is undone by `Text.Split` |
| Text.Split | run.py:48 | `split("\n")` gives at least one piece and no piece holds the separator |
| Cli.GetRedditThread | run.py:27-37 | Fewer than two arguments print the usage and exit 1. A non-matching URL prints the error and exits 1. Otherwise the URL is returned |
| Cli.Candidates | run.py:48-53 | No candidate is empty or whitespace-only |
| Cli.FindAndAddSongs | run.py:47-59 | The add calls carry every id to add, each once, 1 to 100 per call, and the success line is printed |
| Cli.Run | run.py:61-68 | The script exits with status 1 exactly when the argument is missing or invalid, after printing the usage lines or the invalid-URL line respectively. Otherwise a public playlist is requested for `SPOTIFY_USER_ID` (`None` when unset), with the title and the description prefix plus URL, and the songs are added |
| Client.EnvironmentValue | run.py:66 | `os.environ.get` is `None` exactly when the variable is unset |
| Cli.PiecesYieldLines | run.py:48 | On a body whose only line boundary is `"\n"`, `split("\n")` and `splitlines()` yield the same candidates |
| Cli.AgreesWithFlaskApp | run.py:48 | When no comment holds another line boundary, `run.py` and `app.py` search for the same candidates |
| Cli.CarriageReturnSplitsOnlyInApp | run.py:48 | For any two texts without line boundaries around a `"\r"`, `splitlines()` cuts there (a final `"\r"` opens no empty line) and `split("\n")` keeps it |

## Left out

- Network I/O:
  - Reddit (`asyncpraw`, `praw`), the Spotify Web API and `spotipy` are parameters.
  - The `httpx` client wrapper's lifecycle (main.py:26-48) is not part of this model.
  - The FastAPI and Flask request plumbing is not part of this model.
- JSON: JSON serialisation is not modelled. A websocket's outbox holds message values.
- Logging and `print` of responses are not modelled.
  - This includes main.py:308, which logs `comment.body` of the last comment of the extraction loop rather than the current line.
- The OAuth token exchange and refresh are not modelled (main.py:107-192 after the state check, and app.py:52-69). They are network I/O with base64 headers.
- `generate_random_string` (main.py:95-104) is not modelled: it uses randomness and floats.
- `ConnectionManager.broadcast` is not modelled. Nothing in the pipeline calls it.
- The `while True` loop of `websocket_endpoint`:
  - `Session.Endpoint` models one pass, by a client that closes the socket after its playlist is ready.
  - Concurrency between sessions is not modelled.
- Foreign libraries are parameters, not definitions:
  - `emoji.replace_emoji`, `str.lower`, nltk's `word_tokenize` and English stopwords.
  - The Unicode class `\w`.
- Failures outside the retry loops are not modelled:
  - The `/me` and create-playlist calls of main.py, and `artists[0]` of an item with no artists.
  - A `KeyError` from a search result without `tracks` in app.py and run.py.
  - Exceptions from `spotipy` and `praw` calls, such as a `MoreComments` entry without a `body`.
- `FlaskApp.CreatePlaylist` does not model the `except Exception` branch. The model assumes the calls inside the `try` succeed.
- `Cli.Run` and `FlaskApp.CreatePlaylist` do not model the user and playlist-id arguments of `user_playlist_add_tracks`. Every call carries the same ones.
- `Dedup.SetToList`: Python leaves the order of `list(set(…))` open, so the model promises nothing about order. The body happens to keep first occurrences.
- Other routes are not modelled:
  - The GET branch of `/create/playlist`.
  - The Flask routes `index`, `login`, `callback`, `success` and `logout`.
  - `get_spotify_client`.
  - `run.py`'s client constructors.
- `Connections.ConnectionManager.Disconnect` reports an unlisted socket with `removed == false` instead of raising `ValueError`.
