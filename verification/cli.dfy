/** run.py, the command-line copy: the thread URL comes from the command
    line, the user from `SPOTIFY_USER_ID`, the playlist is public, and
    comment bodies are split on "\n" only. */
module Cli {
  import opened Wrappers
  import opened Seqs
  import opened Text
  import opened Batching
  import opened Spotify
  import opened Extraction
  import opened ThreadUrl
  import opened Title
  import opened Client
  import FlaskApp

  const USAGE: seq<string> := [
    "Please provide the Reddit post URL as a command line argument.",
    "Usage: python run.py <Reddit post URL>"
  ]
  const INVALID_URL: string := "Invalid Reddit post URL."
  const DESCRIPTION_PREFIX: string := "Playlist created from Reddit comments thread: "

  /** What `get_reddit_thread` leads to: `exit(status)` after printing some
      lines, or the thread URL. */
  datatype ThreadArgument = Exit(status: int, printed: seq<string>) | Given(url: string)

  /** `get_reddit_thread`, reading `sys.argv`. `isWord` is the class `\w`. */
  method GetRedditThread(argv: seq<string>, isWord: char -> bool) returns (r: ThreadArgument)
    ensures |argv| < 2 ==> r == Exit(1, USAGE)
    ensures |argv| >= 2 && !Matches(argv[1], isWord) ==> r == Exit(1, [INVALID_URL])
    ensures r.Given? <==> |argv| >= 2 && Matches(argv[1], isWord)
    ensures r.Given? ==> r.url == argv[1]
  {
    if |argv| < 2 {
      return Exit(1, USAGE);
    }
    var redditUrl := argv[1];
    if !Matches(redditUrl, isWord) {
      return Exit(1, [INVALID_URL]);
    }
    return Given(redditUrl);
  }

  /** `comment.body.split("\n")` */
  function CommentPieces(c: Comment): seq<string> {
    Split(c.body, '\n')
  }

  /** `possible_songs`: the same chain as app.py over the "\n"-separated
      pieces of every comment. */
  function Candidates(comments: seq<Comment>, replaceEmoji: string -> string): (r: seq<string>)
    ensures forall i :: 0 <= i < |r| ==> r[i] != "" && !IsSpaceOnly(r[i])
  {
    var lines := Flatten(Map(CommentPieces, comments));
    ClientChainIsLineByLine(lines, replaceEmoji);
    ClientChain(lines, replaceEmoji)
  }

  /** The ids `find_and_add_songs_to_playlist` adds. */
  function SongsToAdd(comments: seq<Comment>, replaceEmoji: string -> string, env: map<string, string>,
                      catalog: SearchRequest -> seq<Track>): seq<string>
  {
    TrackIds(Candidates(comments, replaceEmoji), EnvironmentMarket(env), catalog)
  }

  /** The line printed once the songs are added. */
  function SuccessLine(playlist: Playlist): string {
    "Playlist " + playlist.name + " created from Reddit comments thread successfully. Enjoy!"
  }

  /** `find_and_add_songs_to_playlist`: the id lists of the add calls, in
      order, and the line it prints. */
  method FindAndAddSongs(comments: seq<Comment>, replaceEmoji: string -> string, env: map<string, string>,
                         catalog: SearchRequest -> seq<Track>, playlist: Playlist)
      returns (adds: seq<seq<string>>, printed: string)
    ensures Flatten(adds) == SongsToAdd(comments, replaceEmoji, env, catalog)
    ensures NoDuplicates(Flatten(adds))
    ensures forall k :: 0 <= k < |adds| ==> 0 < |adds[k]| <= BATCH_SIZE
    ensures printed == SuccessLine(playlist)
  {
    var possibleSongs := Candidates(comments, replaceEmoji);
    var songIds := TrackIds(possibleSongs, EnvironmentMarket(env), catalog);
    adds := AddInBatches(songIds);
    printed := SuccessLine(playlist);
  }

  /** How a run ends: an early exit, or a filled playlist. */
  datatype RunOutcome =
    | Exited(status: int, printed: seq<string>)
    | Finished(request: PlaylistRequest, adds: seq<seq<string>>, printed: seq<string>)

  /** `main`. */
  method Run(argv: seq<string>, isWord: char -> bool, env: map<string, string>, svc: Services)
      returns (outcome: RunOutcome)
    ensures outcome.Exited? <==> |argv| < 2 || !Matches(argv[1], isWord)
    ensures outcome.Exited? ==> outcome.status == 1
    ensures outcome.Exited? ==> outcome.printed == if |argv| < 2 then USAGE else [INVALID_URL]
    ensures outcome.Finished? ==>
              var thread := argv[1];
              outcome.request == PlaylistRequest(EnvironmentValue(env, "SPOTIFY_USER_ID"),
                                                 PlaylistTitle(svc.reddit(thread).title, svc.lower, svc.tokenize, svc.stopWords),
                                                 true, DESCRIPTION_PREFIX + thread)
              && Flatten(outcome.adds) == SongsToAdd(svc.reddit(thread).comments, svc.replaceEmoji, env, svc.catalog)
              && outcome.printed == [SuccessLine(svc.created)]
  {
    var argument := GetRedditThread(argv, isWord);
    if argument.Exit? {
      return Exited(argument.status, argument.printed);
    }
    var thread := argument.url;
    var name := PlaylistTitle(svc.reddit(thread).title, svc.lower, svc.tokenize, svc.stopWords);
    var request := PlaylistRequest(EnvironmentValue(env, "SPOTIFY_USER_ID"), name, true, DESCRIPTION_PREFIX + thread);
    var adds, line := FindAndAddSongs(svc.reddit(thread).comments, svc.replaceEmoji, env, svc.catalog, svc.created);
    outcome := Finished(request, adds, [line]);
  }

  // ---------------------------------------------------------------------
  // How run.py's split relates to app.py's

  /** The only line boundary in `s` is "\n". */
  predicate NewlinesOnly(s: string) {
    forall i :: 0 <= i < |s| && IsLineBoundary(s[i]) ==> s[i] == '\n'
  }

  /** On a body whose only line boundary is "\n", the pieces of `split("\n")`
      yield the same candidates as the lines of `splitlines()`: they differ
      at most by a final empty piece, which the chain drops. */
  lemma {:induction false} PiecesYieldLines(s: string, replaceEmoji: string -> string)
    requires NewlinesOnly(s)
    ensures ClientLines(Split(s, '\n'), replaceEmoji) == ClientLines(SplitLines(s), replaceEmoji)
    decreases |s|
  {
    var k := LineLength(s);
    if s == [] {
      assert [""][..0] == [];
    } else if k == |s| {
      assert '\n' !in s by {
        forall i | 0 <= i < |s| ensures s[i] != '\n' {
          assert !IsLineBoundary(s[i]);
        }
      }
      IndexOfAbsent(s, '\n');
    } else {
      var line, rest := s[..k], s[k + 1..];
      assert s[k] == '\n';
      assert '\n' !in line by {
        forall i | 0 <= i < |line| ensures line[i] != '\n' {
          assert line[i] == s[i] && !IsLineBoundary(s[i]);
        }
      }
      assert s == line + s[k..];
      IndexOfAt(line, s[k..], '\n');
      assert NextLineStart(s) == k + 1;
      assert Split(s, '\n') == [line] + Split(rest, '\n');
      assert SplitLines(s) == [line] + SplitLines(rest);
      assert NewlinesOnly(rest) by {
        forall i | 0 <= i < |rest| && IsLineBoundary(rest[i]) ensures rest[i] == '\n' {
          assert rest[i] == s[k + 1 + i];
        }
      }
      PiecesYieldLines(rest, replaceEmoji);
      ClientLinesConcat([line], Split(rest, '\n'), replaceEmoji);
      ClientLinesConcat([line], SplitLines(rest), replaceEmoji);
    }
  }

  /** Comment by comment, the pieces yield what the lines yield. */
  lemma {:induction false} CommentPiecesYieldLines(comments: seq<Comment>, replaceEmoji: string -> string)
    requires forall j :: 0 <= j < |comments| ==> NewlinesOnly(comments[j].body)
    ensures ClientLines(Flatten(Map(CommentPieces, comments)), replaceEmoji)
            == ClientLines(Flatten(Map(FlaskApp.CommentLines, comments)), replaceEmoji)
    decreases |comments|
  {
    if comments != [] {
      var init, c := comments[..|comments| - 1], comments[|comments| - 1];
      assert comments == init + [c];
      CommentPiecesYieldLines(init, replaceEmoji);
      MapConcat(CommentPieces, init, [c]);
      MapConcat(FlaskApp.CommentLines, init, [c]);
      FlattenConcat(Map(CommentPieces, init), [CommentPieces(c)]);
      FlattenConcat(Map(FlaskApp.CommentLines, init), [FlaskApp.CommentLines(c)]);
      assert Flatten([CommentPieces(c)]) == CommentPieces(c);
      assert Flatten([FlaskApp.CommentLines(c)]) == FlaskApp.CommentLines(c);
      ClientLinesConcat(Flatten(Map(CommentPieces, init)), CommentPieces(c), replaceEmoji);
      ClientLinesConcat(Flatten(Map(FlaskApp.CommentLines, init)), FlaskApp.CommentLines(c), replaceEmoji);
      PiecesYieldLines(c.body, replaceEmoji);
    }
  }

  /** When no comment holds a line boundary other than "\n", run.py and
      app.py search for the same candidates. */
  lemma AgreesWithFlaskApp(comments: seq<Comment>, replaceEmoji: string -> string)
    requires forall j :: 0 <= j < |comments| ==> NewlinesOnly(comments[j].body)
    ensures Candidates(comments, replaceEmoji) == FlaskApp.Candidates(comments, replaceEmoji)
  {
    ClientChainIsLineByLine(Flatten(Map(CommentPieces, comments)), replaceEmoji);
    ClientChainIsLineByLine(Flatten(Map(FlaskApp.CommentLines, comments)), replaceEmoji);
    CommentPiecesYieldLines(comments, replaceEmoji);
  }

  /** A carriage return ends a line for app.py but not for run.py: between
      two runs of text without line boundaries, `splitlines()` cuts at it
      and `split("\n")` keeps it. A final "\r" opens no empty line. */
  lemma CarriageReturnSplitsOnlyInApp(a: string, b: string)
    requires forall i :: 0 <= i < |a| ==> !IsLineBoundary(a[i])
    requires forall i :: 0 <= i < |b| ==> !IsLineBoundary(b[i])
    ensures Split(a + "\r" + b, '\n') == [a + "\r" + b]
    ensures SplitLines(a + "\r" + b) == if b == "" then [a] else [a, b]
  {
    var s := a + "\r" + b;
    assert forall i :: 0 <= i < |a| ==> s[i] == a[i];
    assert forall i :: |a| < i < |s| ==> s[i] == b[i - |a| - 1];
    assert '\n' !in s by {
      assert forall i :: 0 <= i < |s| && i != |a| ==> !IsLineBoundary(s[i]);
    }
    IndexOfAbsent(s, '\n');
    LineLengthAt(s, |a|);
    assert NextLineStart(s) == |a| + 1;
    assert s[..|a|] == a && s[|a| + 1..] == b;
    if b != [] {
      LineLengthWhole(b);
    }
  }
}
