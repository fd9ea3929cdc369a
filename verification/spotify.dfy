/** What the pipeline sends to and reads from the Spotify Web API, reduced to
    the fields the three copies use. */
module Spotify {
  import opened Wrappers
  import opened Text

  /** An item of a search result. `artist` is the name of its first artist. */
  datatype Track = Track(id: string, uri: string, name: string, artist: string)

  /** The query parameters of one `GET /v1/search`. */
  datatype SearchRequest = SearchRequest(q: string, kind: string, limit: nat, market: string)

  /** The JSON body of a search response: `tracks` is absent from an error
      body, and otherwise holds the `items` list. The status code is kept
      only to show that nothing reads it. */
  datatype SearchResponse = SearchResponse(status: int, tracks: Option<seq<Track>>)

  /** The search API's limit on the length of a query. */
  const QUERY_LIMIT: nat := 100

  /** `line[:100]`, the query sent for a candidate line. */
  function Query(line: string): (q: string)
    ensures q <= line
    ensures |q| == if |line| < QUERY_LIMIT then |line| else QUERY_LIMIT
  {
    Prefix(line, QUERY_LIMIT)
  }

  /** The search every copy issues for a line: one track, in the given market. */
  function SearchFor(line: string, market: string): (r: SearchRequest)
    ensures |r.q| <= QUERY_LIMIT && r.q <= line
    ensures r.kind == "track" && r.limit == 1 && r.market == market
  {
    SearchRequest(Query(line), "track", 1, market)
  }

  /** main.py: `market if market else "US"`, the market received from the client. */
  function MarketOrDefault(market: string): (m: string)
    ensures m != ""
    ensures market == "" ==> m == "US"
    ensures market != "" ==> m == market
  {
    if market == "" then "US" else market
  }

  /** app.py and run.py: `os.environ.get("SPOTIFY_MARKET", "US")`. Unlike
      main.py, a variable set to the empty string is used as it is. */
  function EnvironmentMarket(env: map<string, string>): (m: string)
    ensures "SPOTIFY_MARKET" in env ==> m == env["SPOTIFY_MARKET"]
    ensures "SPOTIFY_MARKET" !in env ==> m == "US"
  {
    if "SPOTIFY_MARKET" in env then env["SPOTIFY_MARKET"] else "US"
  }

  /** main.py: the track a search response yields, if `tracks` is present
      and its `items` list is non-empty; then it is the first item. */
  function TopTrack(response: SearchResponse): (t: Option<Track>)
    ensures t.Some? <==> response.tracks.Some? && response.tracks.value != []
    ensures t.Some? ==> t.value == response.tracks.value[0]
  {
    match response.tracks
    case Some(items) => if items != [] then Some(items[0]) else None
    case None => None
  }

  /** app.py and run.py: `[r['tracks']['items'][0]['id'] for r in results if r['tracks']['items'] != []]`. */
  function SongIds(results: seq<seq<Track>>): (ids: seq<string>)
    ensures |ids| <= |results|
    decreases |results|
  {
    if results == [] then []
    else
      var last := results[|results| - 1];
      SongIds(results[..|results| - 1]) + (if last != [] then [last[0].id] else [])
  }

  /** The ids come from the results in order: those of two runs of searches
      are those of the first run followed by those of the second. */
  lemma {:induction false} SongIdsConcat(a: seq<seq<Track>>, b: seq<seq<Track>>)
    ensures SongIds(a + b) == SongIds(a) + SongIds(b)
    decreases |b|
  {
    if b == [] {
      assert a + b == a;
    } else {
      assert (a + b)[..|a + b| - 1] == a + b[..|b| - 1];
      assert (a + b)[|a + b| - 1] == b[|b| - 1];
      SongIdsConcat(a, b[..|b| - 1]);
    }
  }

  /** Every id is the first item's id of some non-empty result, and every
      non-empty result contributes its first item's id. */
  lemma {:induction false} SongIdsFromFirstItems(results: seq<seq<Track>>)
    ensures forall k :: 0 <= k < |SongIds(results)| ==>
              exists j :: 0 <= j < |results| && results[j] != [] && SongIds(results)[k] == results[j][0].id
    ensures forall j :: 0 <= j < |results| && results[j] != [] ==> results[j][0].id in SongIds(results)
    decreases |results|
  {
    if results != [] {
      var init, last := results[..|results| - 1], results[|results| - 1];
      SongIdsFromFirstItems(init);
      assert forall j :: 0 <= j < |init| ==> init[j] == results[j];
      var ids := SongIds(results);
      assert ids == SongIds(init) + (if last != [] then [last[0].id] else []);
      forall k | 0 <= k < |ids|
        ensures exists j :: 0 <= j < |results| && results[j] != [] && ids[k] == results[j][0].id
      {
        if k < |SongIds(init)| {
          var j :| 0 <= j < |init| && init[j] != [] && SongIds(init)[k] == init[j][0].id;
          assert results[j] == init[j];
        } else {
          var j := |results| - 1;
          assert results[j] == last && last != [] && ids[k] == results[j][0].id;
        }
      }
    } else {
      assert SongIds(results) == [];
    }
  }
}
