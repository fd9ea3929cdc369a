/** app.py, the Flask copy: the POST branch of `/create/playlist`, from a
    submitted thread URL to a private playlist filled with the songs its
    comments name. */
module FlaskApp {
  import opened Wrappers
  import opened Seqs
  import opened Text
  import opened Batching
  import opened Spotify
  import opened Extraction
  import opened ThreadUrl
  import opened Title
  import opened Client

  const DESCRIPTION_PREFIX: string := "Playlist created from Reddit comments: "

  /** `comment.body.splitlines()` */
  function CommentLines(c: Comment): seq<string> {
    SplitLines(c.body)
  }

  /** `possible_songs`: the comprehension chain over every line of every
      comment, whoever wrote it. */
  function Candidates(comments: seq<Comment>, replaceEmoji: string -> string): (r: seq<string>)
    ensures forall i :: 0 <= i < |r| ==> r[i] != "" && !IsSpaceOnly(r[i])
  {
    var lines := Flatten(Map(CommentLines, comments));
    ClientChainIsLineByLine(lines, replaceEmoji);
    ClientChain(lines, replaceEmoji)
  }

  /** Every comment counts, in order, with no author filter: the candidates
      of two runs of comments are those of the first followed by those of
      the second. */
  lemma CandidatesConcat(a: seq<Comment>, b: seq<Comment>, replaceEmoji: string -> string)
    ensures Candidates(a + b, replaceEmoji) == Candidates(a, replaceEmoji) + Candidates(b, replaceEmoji)
  {
    MapConcat(CommentLines, a, b);
    FlattenConcat(Map(CommentLines, a), Map(CommentLines, b));
    ClientChainConcat(Flatten(Map(CommentLines, a)), Flatten(Map(CommentLines, b)), replaceEmoji);
  }

  /** The ids `find_and_add_songs_to_playlist` adds, searching in the market
      of `SPOTIFY_MARKET` or "US". */
  function SongsToAdd(comments: seq<Comment>, replaceEmoji: string -> string, env: map<string, string>,
                      catalog: SearchRequest -> seq<Track>): seq<string>
  {
    TrackIds(Candidates(comments, replaceEmoji), EnvironmentMarket(env), catalog)
  }

  /** `find_and_add_songs_to_playlist`: returns the id lists of the add
      calls, in order. Together they are the songs to add, each once, in at
      most 100 per call and with no cap on the total. */
  method FindAndAddSongs(comments: seq<Comment>, replaceEmoji: string -> string, env: map<string, string>,
                         catalog: SearchRequest -> seq<Track>) returns (adds: seq<seq<string>>)
    ensures Flatten(adds) == SongsToAdd(comments, replaceEmoji, env, catalog)
    ensures NoDuplicates(Flatten(adds))
    ensures forall k :: 0 <= k < |adds| ==> 0 < |adds[k]| <= BATCH_SIZE
  {
    var possibleSongs := Candidates(comments, replaceEmoji);
    var songIds := TrackIds(possibleSongs, EnvironmentMarket(env), catalog);
    adds := AddInBatches(songIds);
  }

  /** The answer to a POST of the form: a flash and a redirect back to the
      form, or a redirect to `/success` after the playlist was filled. */
  datatype PostOutcome =
    | InvalidUrl
    | Created(request: PlaylistRequest, adds: seq<seq<string>>, successUrl: string)

  /** The POST branch of `create_playlist` for the current user `userId`.
      `isWord` is the class `\w`. */
  method CreatePlaylist(url: string, isWord: char -> bool, userId: string, env: map<string, string>,
                        svc: Services) returns (outcome: PostOutcome)
    ensures outcome == InvalidUrl <==> !Matches(url, isWord)
    ensures outcome.Created? ==>
              outcome.request == PlaylistRequest(Some(userId),
                                                 PlaylistTitle(svc.reddit(url).title, svc.lower, svc.tokenize, svc.stopWords),
                                                 false, DESCRIPTION_PREFIX + url)
              && Flatten(outcome.adds) == SongsToAdd(svc.reddit(url).comments, svc.replaceEmoji, env, svc.catalog)
              && outcome.successUrl == svc.created.url
  {
    if !Matches(url, isWord) {
      return InvalidUrl;
    }
    var name := PlaylistTitle(svc.reddit(url).title, svc.lower, svc.tokenize, svc.stopWords);
    var request := PlaylistRequest(Some(userId), name, false, DESCRIPTION_PREFIX + url);
    var adds := FindAndAddSongs(svc.reddit(url).comments, svc.replaceEmoji, env, svc.catalog);
    outcome := Created(request, adds, svc.created.url);
  }
}
