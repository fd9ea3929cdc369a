/** The part of `find_and_add_songs_to_playlist` that app.py and run.py
    share word for word: one search per candidate, the id of the first item
    of every non-empty result, `dict.fromkeys` to drop repeats, and the
    playlist the ids go into. The Spotify search is a parameter `catalog`
    from a request to the `items` list of its response. */
module Client {
  import opened Wrappers
  import opened Seqs
  import opened Dedup
  import opened Spotify
  import opened Extraction

  /** The thread as praw gives it: its title and the comments that iterating
      `submission.comments` yields. */
  datatype Thread = Thread(title: string, comments: seq<Comment>)

  /** The arguments of `user_playlist_create`. */
  datatype PlaylistRequest = PlaylistRequest(user: Option<string>, name: string, public: bool, description: string)

  /** The fields of the created playlist the two copies read. */
  datatype Playlist = Playlist(id: string, name: string, url: string)

  /** What the two copies get from outside: Reddit's thread for a URL, the
      playlist Spotify creates, the search, and the library calls the
      pipeline uses (`str.lower`, nltk's `word_tokenize` and English
      stopwords, `emoji.replace_emoji`). */
  datatype Services = Services(
    reddit: string -> Thread,
    created: Playlist,
    catalog: SearchRequest -> seq<Track>,
    lower: string -> string,
    tokenize: string -> seq<string>,
    stopWords: set<string>,
    replaceEmoji: string -> string)

  /** `os.environ.get(key)`: `None` when the variable is not set. */
  function EnvironmentValue(env: map<string, string>, key: string): (v: Option<string>)
    ensures v.Some? <==> key in env
    ensures key in env ==> v.value == env[key]
  {
    if key in env then Some(env[key]) else None
  }

  /** The search request of every candidate, in candidate order. */
  function Searches(candidates: seq<string>, market: string): (r: seq<SearchRequest>)
    ensures |r| == |candidates|
    ensures forall j :: 0 <= j < |candidates| ==> r[j] == SearchFor(candidates[j], market)
  {
    Map((line: string) => SearchFor(line, market), candidates)
  }

  /** `song_ids` after `dict.fromkeys`: the ids to add, in the order of the
      candidates that found them. */
  function TrackIds(candidates: seq<string>, market: string, catalog: SearchRequest -> seq<Track>): (ids: seq<string>)
    ensures NoDuplicates(ids)
  {
    FromKeys(SongIds(Map(catalog, Searches(candidates, market))))
  }

  /** A candidate's search found `id`: its result is non-empty and `id` is
      the id of its first item. */
  predicate FoundBy(candidate: string, market: string, catalog: SearchRequest -> seq<Track>, id: string) {
    var items := catalog(SearchFor(candidate, market));
    items != [] && items[0].id == id
  }

  /** The ids to add are exactly the first-item ids of the candidates'
      searches; each occurs once, and in the order in which a candidate
      first found it. */
  lemma TrackIdsAreFound(candidates: seq<string>, market: string, catalog: SearchRequest -> seq<Track>)
    ensures forall id :: id in TrackIds(candidates, market, catalog) <==>
              exists j :: 0 <= j < |candidates| && FoundBy(candidates[j], market, catalog, id)
    ensures var found := SongIds(Map(catalog, Searches(candidates, market)));
            forall i, j :: 0 <= i < j < |TrackIds(candidates, market, catalog)| ==>
              FirstIndex(found, TrackIds(candidates, market, catalog)[i])
              < FirstIndex(found, TrackIds(candidates, market, catalog)[j])
  {
    var results := Map(catalog, Searches(candidates, market));
    var found := SongIds(results);
    var ids := TrackIds(candidates, market, catalog);
    SongIdsFromFirstItems(results);
    FromKeysKeepsFirstOccurrenceOrder(found);
    forall id | id in ids
      ensures exists j :: 0 <= j < |candidates| && FoundBy(candidates[j], market, catalog, id)
    {
      var k :| 0 <= k < |ids| && ids[k] == id;
      var m :| 0 <= m < |found| && found[m] == id;
      var j :| 0 <= j < |results| && results[j] != [] && found[m] == results[j][0].id;
      assert FoundBy(candidates[j], market, catalog, id);
    }
    forall id | exists j :: 0 <= j < |candidates| && FoundBy(candidates[j], market, catalog, id)
      ensures id in ids
    {
      var j :| 0 <= j < |candidates| && FoundBy(candidates[j], market, catalog, id);
      assert results[j] == catalog(SearchFor(candidates[j], market));
      var m :| 0 <= m < |found| && found[m] == id;
    }
  }
}
