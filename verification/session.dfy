/** One pass of main.py's `websocket_endpoint` loop: from a thread URL and a
    market received over the websocket to a filled playlist. Reddit and the
    Spotify endpoints are given as `Services`; each Spotify call made in a
    retry loop is an oracle from (item number, attempt number) to what that
    attempt did. */
module Session {
  import opened Wrappers
  import opened Seqs
  import opened Text
  import opened Retry
  import opened Dedup
  import opened Batching
  import opened Spotify
  import opened Extraction
  import opened Connections
  import opened Tracking

  /** The Spotify Web API requests main.py issues, in the order issued. */
  datatype Request =
    | GetMe                                                              // GET /v1/me
    | CreatePlaylist(userId: string, name: string, description: string)  // POST /v1/users/{id}/playlists
    | Search(params: SearchRequest)                                      // GET /v1/search
    | AddTracks(playlistId: string, uris: seq<string>)                   // POST /v1/playlists/{id}/tracks

  /** What asyncpraw returns for the thread: its title, its top-level
      comments once `replace_more` has run, and the list `comments()` gives. */
  datatype Submission = Submission(title: string, topLevel: seq<Comment>, all: seq<Comment>)

  /** The fields of the `/v1/me` response main.py reads. */
  datatype Profile = Profile(id: string, displayName: string)

  /** The fields of the create-playlist response main.py reads. */
  datatype CreatedPlaylist = CreatedPlaylist(id: string, url: string)

  datatype Services = Services(
    reddit: string -> Submission,
    me: Profile,
    created: CreatedPlaylist,
    search: (nat, nat) -> Attempt<SearchResponse>,
    add: (nat, nat) -> Attempt<int>,
    replaceEmoji: string -> string)

  /** The attempts of the search for candidate number `j`. */
  function SearchAttempts(search: (nat, nat) -> Attempt<SearchResponse>, j: nat): nat -> Attempt<SearchResponse> {
    (k: nat) => search(j, k)
  }

  /** The attempts of the add call for batch number `b`. */
  function AddAttempts(add: (nat, nat) -> Attempt<int>, b: nat): nat -> Attempt<int> {
    (k: nat) => add(b, k)
  }

  /** `k` copies of one request: the attempts of one retry loop. */
  function Repeat<T>(x: T, k: nat): (r: seq<T>)
    ensures |r| == k && forall i :: 0 <= i < k ==> r[i] == x
  {
    seq(k, _ => x)
  }

  const FETCHING: string := "Fetching messages from Reddit Post..."
  const CREATING: string := "Creating Spotify Playlist..."
  const CREATED: string := "Playlist created. Finding songs..."
  const ADDING: string := "Adding songs to playlist..."
  const DESCRIPTION_PREFIX: string := "Playlist created from Reddit post: "

  /** `{"message": comment.body}`, sent for each top-level comment. */
  function CommentNote(c: Comment): Message {
    Note(c.body)
  }

  /** `{"message": f"{track_name} by {artist_name}"}`, sent for each track found. */
  function Announce(t: Track): Message {
    Note(t.name + " by " + t.artist)
  }

  function UriOf(t: Track): string {
    t.uri
  }

  // ---------------------------------------------------------------------
  // The search loop

  /** Where the search loop stands: the tracks found so far, the requests
      issued, and whether an exception escaped (which ends the session). */
  datatype Progress = Progress(tracks: seq<Track>, requests: seq<Request>, raised: bool)

  /** One candidate line: the retried search, then the first item if any. */
  function SearchStep(p: Progress, line: string, market: string, call: nat -> Attempt<SearchResponse>): Progress {
    var requests := p.requests + Repeat(Search(SearchFor(line, MarketOrDefault(market))), AttemptsMade(call));
    match Outcome(call)
    case Raised => Progress(p.tracks, requests, true)
    case Exhausted => Progress(p.tracks, requests, false)
    case Settled(response) =>
      match TopTrack(response)
      case Some(t) => Progress(p.tracks + [t], requests, false)
      case None => Progress(p.tracks, requests, false)
  }

  /** The search loop over the first `n` candidates; it stops at an escaped
      exception. */
  function SearchPhase(lines: seq<string>, market: string, search: (nat, nat) -> Attempt<SearchResponse>, n: nat): Progress
    requires n <= |lines|
    decreases n
  {
    if n == 0 then Progress([], [], false)
    else
      var p := SearchPhase(lines, market, search, n - 1);
      if p.raised then p else SearchStep(p, lines[n - 1], market, SearchAttempts(search, n - 1))
  }

  /** One more candidate, while nothing has escaped, is one more search step. */
  lemma SearchPhaseNext(lines: seq<string>, market: string, search: (nat, nat) -> Attempt<SearchResponse>, j: nat)
    requires j < |lines| && !SearchPhase(lines, market, search, j).raised
    ensures SearchPhase(lines, market, search, j + 1)
            == SearchStep(SearchPhase(lines, market, search, j), lines[j], market, SearchAttempts(search, j))
  {
  }

  /** The requests of one more candidate, while nothing has escaped: its
      search, once per attempt. */
  lemma SearchPhaseRequests(lines: seq<string>, market: string, search: (nat, nat) -> Attempt<SearchResponse>, j: nat)
    requires j < |lines| && !SearchPhase(lines, market, search, j).raised
    ensures SearchPhase(lines, market, search, j + 1).requests
            == SearchPhase(lines, market, search, j).requests
               + Repeat(Search(SearchFor(lines[j], MarketOrDefault(market))), AttemptsMade(SearchAttempts(search, j)))
  {
  }

  /** After an escaped exception, one more candidate changes nothing. */
  lemma SearchPhaseRaised(lines: seq<string>, market: string, search: (nat, nat) -> Attempt<SearchResponse>, j: nat)
    requires j < |lines| && SearchPhase(lines, market, search, j).raised
    ensures SearchPhase(lines, market, search, j + 1) == SearchPhase(lines, market, search, j)
  {
  }

  /** Once an exception has escaped, later candidates are not searched. */
  lemma {:induction false} SearchStopsAfterRaise(lines: seq<string>, market: string,
                                                 search: (nat, nat) -> Attempt<SearchResponse>, n: nat, m: nat)
    requires n <= m <= |lines| && SearchPhase(lines, market, search, n).raised
    ensures SearchPhase(lines, market, search, m) == SearchPhase(lines, market, search, n)
    decreases m - n
  {
    if n < m {
      SearchStopsAfterRaise(lines, market, search, n, m - 1);
    }
  }

  /** `req` is the search for one of the first `n` candidates. */
  predicate IsSearchFor(req: Request, lines: seq<string>, market: string, n: nat)
    requires n <= |lines|
  {
    exists j :: 0 <= j < n && req == Search(SearchFor(lines[j], MarketOrDefault(market)))
  }

  /** Every request in `reqs` is the search for one of the first `n`
      candidates. */
  predicate SearchesFor(reqs: seq<Request>, lines: seq<string>, market: string, n: nat)
    requires n <= |lines|
  {
    forall i :: 0 <= i < |reqs| ==> IsSearchFor(reqs[i], lines, market, n)
  }

  lemma SearchesForMore(reqs: seq<Request>, lines: seq<string>, market: string, n: nat)
    requires n < |lines| && SearchesFor(reqs, lines, market, n)
    ensures SearchesFor(reqs, lines, market, n + 1)
  {
    forall i | 0 <= i < |reqs| ensures IsSearchFor(reqs[i], lines, market, n + 1) {
      assert IsSearchFor(reqs[i], lines, market, n);
      var j :| 0 <= j < n && reqs[i] == Search(SearchFor(lines[j], MarketOrDefault(market)));
    }
  }

  /** Searching candidate number `n` some number of times adds only
      searches for it. */
  lemma SearchesForExtend(reqs: seq<Request>, lines: seq<string>, market: string, n: nat, k: nat)
    requires n < |lines| && SearchesFor(reqs, lines, market, n)
    ensures SearchesFor(reqs + Repeat(Search(SearchFor(lines[n], MarketOrDefault(market))), k), lines, market, n + 1)
  {
    var all := reqs + Repeat(Search(SearchFor(lines[n], MarketOrDefault(market))), k);
    forall i | 0 <= i < |all| ensures IsSearchFor(all[i], lines, market, n + 1) {
      if i < |reqs| {
        assert IsSearchFor(reqs[i], lines, market, n);
        var j :| 0 <= j < n && reqs[i] == Search(SearchFor(lines[j], MarketOrDefault(market)));
        assert all[i] == reqs[i];
      } else {
        assert all[i] == Search(SearchFor(lines[n], MarketOrDefault(market)));
      }
    }
  }

  /** Every request of the search loop is the search for one of the
      candidates: its first 100 characters, type "track", limit 1, and the
      received market or "US". */
  lemma {:induction false} SearchRequestsAreQueries(lines: seq<string>, market: string,
                                                    search: (nat, nat) -> Attempt<SearchResponse>, n: nat)
    requires n <= |lines|
    ensures SearchesFor(SearchPhase(lines, market, search, n).requests, lines, market, n)
    decreases n
  {
    if n > 0 {
      var p := SearchPhase(lines, market, search, n - 1);
      SearchRequestsAreQueries(lines, market, search, n - 1);
      if p.raised {
        SearchPhaseRaised(lines, market, search, n - 1);
        SearchesForMore(p.requests, lines, market, n - 1);
      } else {
        SearchPhaseRequests(lines, market, search, n - 1);
        SearchesForExtend(p.requests, lines, market, n - 1, AttemptsMade(SearchAttempts(search, n - 1)));
      }
    }
  }

  /** Each candidate gets at most `MAX_RETRIES` search attempts. */
  lemma {:induction false} SearchRequestCount(lines: seq<string>, market: string,
                                              search: (nat, nat) -> Attempt<SearchResponse>, n: nat)
    requires n <= |lines|
    ensures |SearchPhase(lines, market, search, n).requests| <= MAX_RETRIES * n
    decreases n
  {
    if n > 0 {
      var p := SearchPhase(lines, market, search, n - 1);
      SearchRequestCount(lines, market, search, n - 1);
      if p.raised {
        SearchPhaseRaised(lines, market, search, n - 1);
      } else {
        AttemptsMadeSpec(SearchAttempts(search, n - 1));
        SearchPhaseRequests(lines, market, search, n - 1);
      }
    }
  }

  /** Track `t` is the first item of the response the search for
      candidate number `j` settled on. */
  predicate TopResultOf(search: (nat, nat) -> Attempt<SearchResponse>, j: nat, t: Track) {
    Outcome(SearchAttempts(search, j)).Settled? && TopTrack(Outcome(SearchAttempts(search, j)).response) == Some(t)
  }

  /** The search step for candidate number `j` keeps the tracks found so
      far and adds at most the first item of the response it settled on. */
  lemma SearchStepTracks(p: Progress, line: string, market: string, search: (nat, nat) -> Attempt<SearchResponse>, j: nat)
    ensures var q := SearchStep(p, line, market, SearchAttempts(search, j));
            q.tracks == p.tracks || exists t :: TopResultOf(search, j, t) && q.tracks == p.tracks + [t]
  {
    var call := SearchAttempts(search, j);
    if Outcome(call).Settled? && TopTrack(Outcome(call).response).Some? {
      assert TopResultOf(search, j, TopTrack(Outcome(call).response).value);
    }
  }

  /** Track `t` is the first item of the response some search among the
      first `n` settled on. */
  predicate FoundAmong(search: (nat, nat) -> Attempt<SearchResponse>, n: nat, t: Track) {
    exists j :: 0 <= j < n && TopResultOf(search, j, t)
  }

  /** Every track found is the first item of a response the search for
      some candidate settled on, and there are at most as many tracks as
      candidates. */
  lemma {:induction false} FoundTracksAreTopResults(lines: seq<string>, market: string,
                                                    search: (nat, nat) -> Attempt<SearchResponse>, n: nat)
    requires n <= |lines|
    ensures var p := SearchPhase(lines, market, search, n);
            |p.tracks| <= n && forall i :: 0 <= i < |p.tracks| ==> FoundAmong(search, n, p.tracks[i])
    decreases n
  {
    if n > 0 {
      var p := SearchPhase(lines, market, search, n - 1);
      FoundTracksAreTopResults(lines, market, search, n - 1);
      var q := SearchPhase(lines, market, search, n);
      if p.raised {
        SearchPhaseRaised(lines, market, search, n - 1);
      } else {
        SearchPhaseNext(lines, market, search, n - 1);
        SearchStepTracks(p, lines[n - 1], market, search, n - 1);
      }
      forall i | 0 <= i < |q.tracks| ensures FoundAmong(search, n, q.tracks[i]) {
        if i < |p.tracks| {
          var j :| 0 <= j < n - 1 && TopResultOf(search, j, p.tracks[i]);
          assert q.tracks[i] == p.tracks[i];
        } else {
          var t :| TopResultOf(search, n - 1, t) && q.tracks == p.tracks + [t];
          assert q.tracks[i] == t;
        }
      }
    }
  }

  /** A candidate whose five attempts all raise `ConnectError` or
      `ReadTimeout` is skipped: no track, no message, five identical
      requests, and the loop goes on. */
  lemma ExhaustedCandidateIsSkipped(lines: seq<string>, market: string,
                                    search: (nat, nat) -> Attempt<SearchResponse>, n: nat)
    requires n < |lines| && !SearchPhase(lines, market, search, n).raised
    requires forall k :: 0 <= k < MAX_RETRIES ==> Retryable(search(n, k))
    ensures var p := SearchPhase(lines, market, search, n);
            var q := SearchPhase(lines, market, search, n + 1);
            q.tracks == p.tracks && !q.raised &&
            q.requests == p.requests + Repeat(Search(SearchFor(lines[n], MarketOrDefault(market))), MAX_RETRIES)
  {
    var call := SearchAttempts(search, n);
    assert forall k :: 0 <= k < MAX_RETRIES ==> Retryable(call(k));
    ExhaustedIffAllRetryable(call);
    AttemptsMadeSpec(call);
  }

  /** A search that returns any response, error statuses included, ends its
      retry loop; a body without `tracks`, or with no items, adds nothing
      and the loop goes on. */
  lemma ResponseWithoutItemsAddsNothing(lines: seq<string>, market: string,
                                        search: (nat, nat) -> Attempt<SearchResponse>, n: nat, j: nat)
    requires n < |lines| && !SearchPhase(lines, market, search, n).raised
    requires j < MAX_RETRIES && forall k :: 0 <= k < j ==> Retryable(search(n, k))
    requires search(n, j).Returned? && TopTrack(search(n, j).response).None?
    ensures var p := SearchPhase(lines, market, search, n);
            var q := SearchPhase(lines, market, search, n + 1);
            q.tracks == p.tracks && !q.raised &&
            q.requests == p.requests + Repeat(Search(SearchFor(lines[n], MarketOrDefault(market))), j + 1)
  {
    var call := SearchAttempts(search, n);
    assert call(j) == search(n, j);
    assert forall k :: 0 <= k < j ==> Retryable(call(k));
    ResponseSettles(call, j);
  }

  /** A response with items, after `j` retryable failures, appends its first
      item to the tracks, in this candidate's place, and the loop goes on. */
  lemma SettledWithItemsAddsTrack(lines: seq<string>, market: string,
                                  search: (nat, nat) -> Attempt<SearchResponse>, n: nat, j: nat, t: Track)
    requires n < |lines| && !SearchPhase(lines, market, search, n).raised
    requires j < MAX_RETRIES && forall k :: 0 <= k < j ==> Retryable(search(n, k))
    requires search(n, j).Returned? && TopTrack(search(n, j).response) == Some(t)
    ensures var p := SearchPhase(lines, market, search, n);
            var q := SearchPhase(lines, market, search, n + 1);
            q.tracks == p.tracks + [t] && !q.raised &&
            q.requests == p.requests + Repeat(Search(SearchFor(lines[n], MarketOrDefault(market))), j + 1)
  {
    var call := SearchAttempts(search, n);
    assert call(j) == search(n, j);
    assert forall k :: 0 <= k < j ==> Retryable(call(k));
    ResponseSettles(call, j);
  }

  // ---------------------------------------------------------------------
  // The add loop

  /** `range(0, min(len(uris), 10000), 100)` with `uris[i:i+100]`. */
  function AddPlan(uris: seq<string>): seq<seq<string>> {
    Slices(uris, Min(|uris|, PLAYLIST_CAP))
  }

  /** main.py adds the first `min(n, 10000)` URIs and no more, in batches of
      one to 100 taken in order; a list without repeats gives batches
      without repeats. */
  lemma PlanIsCappedPrefix(uris: seq<string>)
    ensures Flatten(AddPlan(uris)) == uris[..Min(|uris|, PLAYLIST_CAP)]
    ensures forall b :: 0 <= b < |AddPlan(uris)| ==> 0 < |AddPlan(uris)[b]| <= BATCH_SIZE
    ensures |AddPlan(uris)| == (Min(|uris|, PLAYLIST_CAP) + BATCH_SIZE - 1) / BATCH_SIZE
    ensures NoDuplicates(uris) ==> NoDuplicates(Flatten(AddPlan(uris)))
  {
    SlicesCover(uris, Min(|uris|, PLAYLIST_CAP));
  }

  /** Where the add loop stands: the requests issued, and whether an
      exception escaped. */
  datatype Added = Added(requests: seq<Request>, raised: bool)

  /** The add loop over the first `n` batches; an exhausted batch is
      skipped, an escaped exception ends the loop. */
  function AddPhase(playlistId: string, batches: seq<seq<string>>, add: (nat, nat) -> Attempt<int>, n: nat): Added
    requires n <= |batches|
    decreases n
  {
    if n == 0 then Added([], false)
    else
      var p := AddPhase(playlistId, batches, add, n - 1);
      if p.raised then p
      else
        var call := AddAttempts(add, n - 1);
        Added(p.requests + Repeat(AddTracks(playlistId, batches[n - 1]), AttemptsMade(call)), Outcome(call).Raised?)
  }

  /** One more batch, while nothing has escaped, is one more retried add call. */
  lemma AddPhaseNext(playlistId: string, batches: seq<seq<string>>, add: (nat, nat) -> Attempt<int>, b: nat)
    requires b < |batches| && !AddPhase(playlistId, batches, add, b).raised
    ensures AddPhase(playlistId, batches, add, b + 1)
            == Added(AddPhase(playlistId, batches, add, b).requests
                       + Repeat(AddTracks(playlistId, batches[b]), AttemptsMade(AddAttempts(add, b))),
                     Outcome(AddAttempts(add, b)).Raised?)
  {
  }

  lemma {:induction false} AddStopsAfterRaise(playlistId: string, batches: seq<seq<string>>,
                                              add: (nat, nat) -> Attempt<int>, n: nat, m: nat)
    requires n <= m <= |batches| && AddPhase(playlistId, batches, add, n).raised
    ensures AddPhase(playlistId, batches, add, m) == AddPhase(playlistId, batches, add, n)
    decreases m - n
  {
    if n < m {
      AddStopsAfterRaise(playlistId, batches, add, n, m - 1);
    }
  }

  /** Every add request carries one of the batches, each batch is tried at
      most `MAX_RETRIES` times. */
  lemma {:induction false} AddRequestsCarryBatches(playlistId: string, batches: seq<seq<string>>,
                                                   add: (nat, nat) -> Attempt<int>, n: nat)
    requires n <= |batches|
    ensures var p := AddPhase(playlistId, batches, add, n);
            forall i :: 0 <= i < |p.requests| ==>
              exists b :: 0 <= b < n && p.requests[i] == AddTracks(playlistId, batches[b])
    ensures |AddPhase(playlistId, batches, add, n).requests| <= MAX_RETRIES * n
    decreases n
  {
    if n > 0 {
      var p := AddPhase(playlistId, batches, add, n - 1);
      AddRequestsCarryBatches(playlistId, batches, add, n - 1);
      if !p.raised {
        var call := AddAttempts(add, n - 1);
        AttemptsMadeSpec(call);
        var q := AddPhase(playlistId, batches, add, n);
        var tail := Repeat(AddTracks(playlistId, batches[n - 1]), AttemptsMade(call));
        assert q.requests == p.requests + tail;
        forall i | 0 <= i < |q.requests|
          ensures exists b :: 0 <= b < n && q.requests[i] == AddTracks(playlistId, batches[b])
        {
          if i < |p.requests| {
            var b :| 0 <= b < n - 1 && p.requests[i] == AddTracks(playlistId, batches[b]);
            assert q.requests[i] == p.requests[i];
          } else {
            assert q.requests[i] == tail[i - |p.requests|];
          }
        }
      }
    }
  }

  /** Unless an exception escaped, every batch was sent at least once,
      exhausted ones included. */
  lemma {:induction false} AddRequestsCoverBatches(playlistId: string, batches: seq<seq<string>>,
                                                   add: (nat, nat) -> Attempt<int>, n: nat)
    requires n <= |batches|
    ensures !AddPhase(playlistId, batches, add, n).raised ==>
              forall b :: 0 <= b < n ==> AddTracks(playlistId, batches[b]) in AddPhase(playlistId, batches, add, n).requests
    decreases n
  {
    if n > 0 {
      var p := AddPhase(playlistId, batches, add, n - 1);
      AddRequestsCoverBatches(playlistId, batches, add, n - 1);
      var q := AddPhase(playlistId, batches, add, n);
      if !q.raised {
        assert !p.raised;
        var call := AddAttempts(add, n - 1);
        AttemptsMadeSpec(call);
        var tail := Repeat(AddTracks(playlistId, batches[n - 1]), AttemptsMade(call));
        assert q.requests == p.requests + tail;
        forall b | 0 <= b < n ensures AddTracks(playlistId, batches[b]) in q.requests {
          if b < n - 1 {
            var i :| 0 <= i < |p.requests| && p.requests[i] == AddTracks(playlistId, batches[b]);
            assert q.requests[i] == p.requests[i];
          } else {
            assert q.requests[|p.requests|] == tail[0];
          }
        }
      }
    }
  }

  // ---------------------------------------------------------------------
  // The session

  /** The candidates main.py searches for, from the thread the cleaned URL
      names. */
  function Candidates(url: string, svc: Services): seq<string> {
    ServerCandidates(svc.reddit(StripTracking(url)).all, svc.replaceEmoji)
  }

  function Found(url: string, market: string, svc: Services): Progress {
    SearchPhase(Candidates(url, svc), market, svc.search, |Candidates(url, svc)|)
  }

  function AddAll(svc: Services, uris: seq<string>): Added {
    AddPhase(svc.created.id, AddPlan(uris), svc.add, |AddPlan(uris)|)
  }

  /** The requests before the search loop: `/me`, then the playlist, named
      after the thread and described by the cleaned URL. */
  function OpeningRequests(url: string, svc: Services): seq<Request> {
    var clean := StripTracking(url);
    [GetMe, CreatePlaylist(svc.me.id, svc.reddit(clean).title, DESCRIPTION_PREFIX + clean)]
  }

  /** The messages before the search loop. */
  function OpeningMessages(url: string, svc: Services): seq<Message> {
    [Status(FETCHING)] + Map(CommentNote, svc.reddit(StripTracking(url)).topLevel) + [Status(CREATING), Status(CREATED)]
  }

  function ReadyMessage(svc: Services): Message {
    Ready("Hooray! " + svc.me.displayName + ", Your Playlist is ready!", svc.created.url)
  }

  /** Whether the pass gets to its last message: neither loop let an
      exception escape. */
  function Completes(url: string, market: string, svc: Services, uris: seq<string>): bool {
    !Found(url, market, svc).raised && !AddAll(svc, uris).raised
  }

  function SessionRequests(url: string, market: string, svc: Services, uris: seq<string>): seq<Request> {
    var found := Found(url, market, svc);
    OpeningRequests(url, svc) + found.requests + (if found.raised then [] else AddAll(svc, uris).requests)
  }

  function SessionMessages(url: string, market: string, svc: Services, uris: seq<string>): seq<Message> {
    var found := Found(url, market, svc);
    OpeningMessages(url, svc) + Map(Announce, found.tracks)
      + (if found.raised then [] else [Status(ADDING)] + (if Completes(url, market, svc, uris) then [ReadyMessage(svc)] else []))
  }

  /** main.py's nested loops building `filtered_lines`. */
  method ExtractLines(comments: seq<Comment>, replaceEmoji: string -> string) returns (filtered: seq<string>)
    ensures filtered == ServerCandidates(comments, replaceEmoji)
  {
    filtered := [];
    for i := 0 to |comments|
      invariant filtered == ServerCandidates(comments[..i], replaceEmoji)
    {
      var comment := comments[i];
      ServerCandidatesNext(comments, i, replaceEmoji);
      if WrittenByPerson(comment) {
        var kept := ExtractCommentLines(SplitLines(comment.body), replaceEmoji);
        filtered := filtered + kept;
      }
    }
    assert comments[..|comments|] == comments;
  }

  lemma ServerCandidatesNext(comments: seq<Comment>, i: nat, replaceEmoji: string -> string)
    requires i < |comments|
    ensures ServerCandidates(comments[..i + 1], replaceEmoji)
            == ServerCandidates(comments[..i], replaceEmoji)
               + (if WrittenByPerson(comments[i]) then ServerLines(SplitLines(comments[i].body), replaceEmoji) else [])
  {
    assert comments[..i + 1][..i] == comments[..i];
  }

  /** The inner loop of `ExtractLines`, over the lines of one comment. */
  method ExtractCommentLines(lines: seq<string>, replaceEmoji: string -> string) returns (kept: seq<string>)
    ensures kept == ServerLines(lines, replaceEmoji)
  {
    kept := [];
    for k := 0 to |lines|
      invariant kept == ServerLines(lines[..k], replaceEmoji)
    {
      assert lines[..k + 1][..k] == lines[..k];
      var line := StripUrls(lines[k]);
      line := replaceEmoji(line);
      if line != "" && line != "[" && !IsSpaceOnly(line) {
        kept := kept + [line];
      }
    }
    assert lines[..|lines|] == lines;
  }

  /** One iteration of the search loop: the retried search for one line,
      and the track it found, if any. */
  method SearchLine(p: Progress, line: string, market: string, call: nat -> Attempt<SearchResponse>)
      returns (q: Progress, found: Option<Track>)
    ensures q == SearchStep(p, line, market, call)
    ensures found.Some? ==> q.tracks == p.tracks + [found.value]
    ensures found.None? ==> q.tracks == p.tracks
  {
    var params := SearchFor(line, MarketOrDefault(market));
    var result, attempts := WithRetries(call);
    var requests := p.requests + Repeat(Search(params), attempts);
    found := None;
    match result {
      case Raised =>
        q := Progress(p.tracks, requests, true);
      case Exhausted =>
        q := Progress(p.tracks, requests, false);
      case Settled(response) =>
        found := TopTrack(response);
        if found.Some? {
          q := Progress(p.tracks + [found.value], requests, false);
        } else {
          q := Progress(p.tracks, requests, false);
        }
    }
  }

  /** One iteration of the search loop, with the message for the track found. */
  method SearchAndAnnounce(manager: ConnectionManager, ws: WebSocket, p: Progress, line: string, market: string,
                           call: nat -> Attempt<SearchResponse>, ghost sentBefore: seq<Message>) returns (q: Progress)
    requires ws.sent == sentBefore + Map(Announce, p.tracks)
    modifies ws
    ensures q == SearchStep(p, line, market, call)
    ensures ws.sent == sentBefore + Map(Announce, q.tracks)
    ensures ws.accepted == old(ws.accepted)
  {
    var found;
    q, found := SearchLine(p, line, market, call);
    if found.Some? {
      MapConcat(Announce, p.tracks, [found.value]);
      manager.SendPersonalMessage(Announce(found.value), ws);
    }
  }

  /** main.py's search loop: for each candidate, the retried search; for
      each first item found, its URI is kept and "<name> by <artist>" is
      sent, in the same order. */
  method FindSongs(manager: ConnectionManager, ws: WebSocket, lines: seq<string>, market: string,
                   search: (nat, nat) -> Attempt<SearchResponse>) returns (p: Progress)
    modifies ws
    ensures p == SearchPhase(lines, market, search, |lines|)
    ensures ws.sent == old(ws.sent) + Map(Announce, p.tracks)
    ensures ws.accepted == old(ws.accepted)
  {
    p := Progress([], [], false);
    var j := 0;
    while j < |lines| && !p.raised
      invariant j <= |lines|
      invariant p == SearchPhase(lines, market, search, j)
      invariant ws.sent == old(ws.sent) + Map(Announce, p.tracks)
      invariant ws.accepted == old(ws.accepted)
      decreases |lines| - j
    {
      SearchPhaseNext(lines, market, search, j);
      p := SearchAndAnnounce(manager, ws, p, lines[j], market, SearchAttempts(search, j), old(ws.sent));
      j := j + 1;
    }
    if j < |lines| {
      SearchStopsAfterRaise(lines, market, search, j, |lines|);
    }
  }

  /** One step of the add loop: the next slice is the next planned batch. */
  lemma NextBatch(uris: seq<string>, done: seq<seq<string>>, i: nat)
    requires i < Min(|uris|, PLAYLIST_CAP)
    requires done + SlicesFrom(uris, i, Min(|uris|, PLAYLIST_CAP)) == AddPlan(uris)
    ensures |done| < |AddPlan(uris)| && AddPlan(uris)[|done|] == Slice(uris, i)
    ensures (done + [Slice(uris, i)]) + SlicesFrom(uris, i + BATCH_SIZE, Min(|uris|, PLAYLIST_CAP)) == AddPlan(uris)
  {
    var stop := Min(|uris|, PLAYLIST_CAP);
    assert SlicesFrom(uris, i, stop) == [Slice(uris, i)] + SlicesFrom(uris, i + BATCH_SIZE, stop);
  }

  /** One iteration of the add loop: the retried add call for one batch. */
  method AddBatch(a: Added, playlistId: string, batch: seq<string>, call: nat -> Attempt<int>) returns (a': Added)
    ensures a'.requests == a.requests + Repeat(AddTracks(playlistId, batch), AttemptsMade(call))
    ensures a'.raised == Outcome(call).Raised?
  {
    var result, attempts := WithRetries(call);
    a' := Added(a.requests + Repeat(AddTracks(playlistId, batch), attempts), result.Raised?);
  }

  /** main.py's add loop: `b` counts the batches, the `i`-th slice is batch
      `i / 100`, each sent in its own retry loop. */
  method AddToPlaylist(playlistId: string, uris: seq<string>, add: (nat, nat) -> Attempt<int>) returns (a: Added)
    ensures a == AddPhase(playlistId, AddPlan(uris), add, |AddPlan(uris)|)
  {
    var stop := Min(|uris|, PLAYLIST_CAP);
    ghost var plan := AddPlan(uris);
    a := Added([], false);
    var i, b := 0, 0;
    ghost var done: seq<seq<string>> := [];
    while i < stop && !a.raised
      invariant |done| == b
      invariant done + SlicesFrom(uris, i, stop) == plan
      invariant a == AddPhase(playlistId, plan, add, b)
      decreases stop - i
    {
      var batch := Slice(uris, i);
      NextBatch(uris, done, i);
      AddPhaseNext(playlistId, plan, add, b);
      a := AddBatch(a, playlistId, batch, AddAttempts(add, b));
      done := done + [batch];
      i, b := i + BATCH_SIZE, b + 1;
    }
    if b < |plan| {
      AddStopsAfterRaise(playlistId, plan, add, b, |plan|);
    } else {
      assert done == plan;
    }
  }

  /** The pass up to the search loop: clean the URL, fetch the thread,
      echo its top-level comments, read the profile, create the playlist. */
  method Open(manager: ConnectionManager, ws: WebSocket, url: string, svc: Services)
      returns (submission: Submission, requests: seq<Request>)
    modifies ws
    ensures submission == svc.reddit(StripTracking(url))
    ensures requests == OpeningRequests(url, svc)
    ensures ws.sent == old(ws.sent) + OpeningMessages(url, svc)
    ensures ws.accepted == old(ws.accepted)
  {
    var clean := StripTracking(url);
    submission := svc.reddit(clean);
    manager.SendPersonalMessage(Status(FETCHING), ws);
    for i := 0 to |submission.topLevel|
      invariant ws.sent == old(ws.sent) + [Status(FETCHING)] + Map(CommentNote, submission.topLevel[..i])
      invariant ws.accepted == old(ws.accepted)
    {
      assert submission.topLevel[..i + 1] == submission.topLevel[..i] + [submission.topLevel[i]];
      MapConcat(CommentNote, submission.topLevel[..i], [submission.topLevel[i]]);
      manager.SendPersonalMessage(CommentNote(submission.topLevel[i]), ws);
    }
    assert submission.topLevel[..|submission.topLevel|] == submission.topLevel;
    manager.SendPersonalMessage(Status(CREATING), ws);
    var me := svc.me;
    requests := [GetMe, CreatePlaylist(me.id, submission.title, DESCRIPTION_PREFIX + clean)];
    manager.SendPersonalMessage(Status(CREATED), ws);
  }

  /** The candidates of the thread, then the search loop over them. */
  method SearchThread(manager: ConnectionManager, ws: WebSocket, submission: Submission, url: string,
                      market: string, svc: Services) returns (found: Progress)
    requires submission == svc.reddit(StripTracking(url))
    modifies ws
    ensures found == Found(url, market, svc)
    ensures ws.sent == old(ws.sent) + Map(Announce, found.tracks)
    ensures ws.accepted == old(ws.accepted)
  {
    var lines := ExtractLines(submission.all, svc.replaceEmoji);
    found := FindSongs(manager, ws, lines, market, svc.search);
  }

  /** The pass after the search loop: `list(set(track_uris))`, the add
      loop, and the closing message when nothing escaped. */
  method Finish(manager: ConnectionManager, ws: WebSocket, tracks: seq<Track>, svc: Services)
      returns (uris: seq<string>, added: Added)
    modifies ws
    ensures NoDuplicates(uris)
    ensures forall i :: 0 <= i < |uris| ==> uris[i] in Map(UriOf, tracks)
    ensures forall i :: 0 <= i < |tracks| ==> tracks[i].uri in uris
    ensures added == AddAll(svc, uris)
    ensures ws.sent == old(ws.sent) + [Status(ADDING)] + (if added.raised then [] else [ReadyMessage(svc)])
    ensures ws.accepted == old(ws.accepted)
  {
    manager.SendPersonalMessage(Status(ADDING), ws);
    uris := SetToList(Map(UriOf, tracks));
    added := AddToPlaylist(svc.created.id, uris, svc.add);
    if !added.raised {
      manager.SendPersonalMessage(Ready("Hooray! " + svc.me.displayName + ", Your Playlist is ready!", svc.created.url), ws);
    }
  }

  /** One pass of the `while True` body of `websocket_endpoint`. `uris` is
      `list(set(track_uris))`, whose order Python leaves open; the contract
      is stated for whatever order it came out in. An escaped exception ends
      the pass early (`completed` false). */
  method HandleSession(manager: ConnectionManager, ws: WebSocket, url: string, market: string, svc: Services)
      returns (requests: seq<Request>, uris: seq<string>, completed: bool)
    modifies ws
    ensures var found := Found(url, market, svc);
            !found.raised ==>
              NoDuplicates(uris) &&
              (forall i :: 0 <= i < |uris| ==> uris[i] in Map(UriOf, found.tracks)) &&
              (forall i :: 0 <= i < |found.tracks| ==> found.tracks[i].uri in uris)
    ensures requests == SessionRequests(url, market, svc, uris)
    ensures completed == Completes(url, market, svc, uris)
    ensures ws.sent == old(ws.sent) + SessionMessages(url, market, svc, uris)
    ensures ws.accepted == old(ws.accepted)
  {
    ghost var before := ws.sent;
    var submission, opening := Open(manager, ws, url, svc);
    requests := opening;
    var found := SearchThread(manager, ws, submission, url, market, svc);
    ghost var searched := ws.sent;
    ghost var prefix := OpeningMessages(url, svc) + Map(Announce, found.tracks);
    assert searched == before + prefix;
    requests := requests + found.requests;
    if found.raised {
      uris := [];
      completed := false;
      assert SessionMessages(url, market, svc, uris) == prefix + [];
      return;
    }
    var added;
    uris, added := Finish(manager, ws, found.tracks, svc);
    requests := requests + added.requests;
    completed := !added.raised;
    ghost var closing := [Status(ADDING)] + (if added.raised then [] else [ReadyMessage(svc)]);
    assert ws.sent == searched + closing;
    assert SessionMessages(url, market, svc, uris) == prefix + closing;
  }

  /** `websocket_endpoint` for a client that sends one URL and one market
      and, once it has its playlist, closes the socket: connect, one pass,
      then `disconnect` on `WebSocketDisconnect`. Only that exception is
      caught, so after any other the socket stays in the manager's list. */
  method Endpoint(manager: ConnectionManager, ws: WebSocket, url: string, market: string, svc: Services)
      returns (requests: seq<Request>, uris: seq<string>, completed: bool)
    modifies manager, ws
    ensures ws.accepted
    ensures requests == SessionRequests(url, market, svc, uris)
    ensures completed == Completes(url, market, svc, uris)
    ensures ws.sent == old(ws.sent) + SessionMessages(url, market, svc, uris)
    ensures completed ==> manager.active == RemoveFirst(old(manager.active) + [ws], ws)
    ensures !completed ==> manager.active == old(manager.active) + [ws]
  {
    manager.Connect(ws);
    requests, uris, completed := HandleSession(manager, ws, url, market, svc);
    if completed {
      var _ := manager.Disconnect(ws);
    }
  }
}
