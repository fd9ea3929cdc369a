/** Turning comment text into candidate song lines. The three copies do it
    differently:
    - main.py skips comments with no author or by AutoModerator or Reddit,
      splits with `splitlines`, removes URLs then emoji, and only then drops
      lines that are empty, whitespace or exactly "[";
    - app.py and run.py keep every comment and run a chain of list
      comprehensions: drop empty lines, remove URLs, drop "[" lines, remove
      emoji, drop whitespace and empty lines. So their "[" test comes
      before emoji removal. (How each copy splits a body is in its module.)
    Emoji removal is a library call (`emoji.replace_emoji(s, replace='')`)
    and is a parameter here. */
module Extraction {
  import opened Wrappers
  import opened Seqs
  import opened Text

  /** A comment's author: a deleted account reads as `None`. */
  datatype Author = Deleted | Redditor(name: string)

  datatype Comment = Comment(author: Author, body: string)

  /** main.py: the comments whose lines are considered. */
  predicate WrittenByPerson(c: Comment) {
    c.author.Redditor? && c.author.name != "AutoModerator" && c.author.name != "Reddit"
  }

  /** main.py: the test a cleaned line must pass to become a candidate. */
  predicate Worthwhile(line: string) {
    line != "" && line != "[" && !IsSpaceOnly(line)
  }

  // ---------------------------------------------------------------------
  // main.py

  /** main.py: a line after URL removal and then emoji removal. */
  function Scrub(line: string, replaceEmoji: string -> string): string {
    replaceEmoji(StripUrls(line))
  }

  /** main.py: the candidates of one comment's lines, in line order. */
  function ServerLines(lines: seq<string>, replaceEmoji: string -> string): (r: seq<string>)
    ensures forall i :: 0 <= i < |r| ==> Worthwhile(r[i])
    decreases |lines|
  {
    if lines == [] then []
    else
      var line := Scrub(lines[|lines| - 1], replaceEmoji);
      ServerLines(lines[..|lines| - 1], replaceEmoji) + (if Worthwhile(line) then [line] else [])
  }

  /** main.py: the candidates of all comments, in comment order. */
  function ServerCandidates(comments: seq<Comment>, replaceEmoji: string -> string): (r: seq<string>)
    ensures forall i :: 0 <= i < |r| ==> Worthwhile(r[i])
    decreases |comments|
  {
    if comments == [] then []
    else
      var c := comments[|comments| - 1];
      ServerCandidates(comments[..|comments| - 1], replaceEmoji)
        + (if WrittenByPerson(c) then ServerLines(SplitLines(c.body), replaceEmoji) else [])
  }

  /** Line order: the candidates of two runs of lines are those of the first
      followed by those of the second. */
  lemma {:induction false} ServerLinesConcat(a: seq<string>, b: seq<string>, replaceEmoji: string -> string)
    ensures ServerLines(a + b, replaceEmoji) == ServerLines(a, replaceEmoji) + ServerLines(b, replaceEmoji)
    decreases |b|
  {
    if b == [] {
      assert a + b == a;
    } else {
      assert (a + b)[..|a + b| - 1] == a + b[..|b| - 1];
      assert (a + b)[|a + b| - 1] == b[|b| - 1];
      ServerLinesConcat(a, b[..|b| - 1], replaceEmoji);
    }
  }

  /** Comment order: the candidates of two runs of comments are those of the
      first followed by those of the second. */
  lemma {:induction false} ServerCandidatesConcat(a: seq<Comment>, b: seq<Comment>, replaceEmoji: string -> string)
    ensures ServerCandidates(a + b, replaceEmoji) == ServerCandidates(a, replaceEmoji) + ServerCandidates(b, replaceEmoji)
    decreases |b|
  {
    if b == [] {
      assert a + b == a;
    } else {
      assert (a + b)[..|a + b| - 1] == a + b[..|b| - 1];
      assert (a + b)[|a + b| - 1] == b[|b| - 1];
      ServerCandidatesConcat(a, b[..|b| - 1], replaceEmoji);
    }
  }

  /** One line becomes a candidate exactly when its form after URL and emoji
      removal passes main.py's test. With `ServerLinesConcat` this fixes
      `ServerLines` on every input. */
  lemma ServerLinesOne(line: string, replaceEmoji: string -> string)
    ensures ServerLines([line], replaceEmoji)
            == if Worthwhile(Scrub(line, replaceEmoji)) then [Scrub(line, replaceEmoji)] else []
  {
    assert [line][..0] == [];
  }

  /** One comment contributes the candidates of its lines exactly when a
      person wrote it. With `ServerCandidatesConcat` this fixes
      `ServerCandidates` on every input. */
  lemma ServerCandidatesOne(c: Comment, replaceEmoji: string -> string)
    ensures ServerCandidates([c], replaceEmoji)
            == if WrittenByPerson(c) then ServerLines(SplitLines(c.body), replaceEmoji) else []
  {
    assert [c][..0] == [];
  }

  /** No line is lost: a line that passes the test once scrubbed is a
      candidate, in its place among the candidates of the other lines. */
  lemma ServerKeepsWorthwhileLine(a: seq<string>, line: string, b: seq<string>, replaceEmoji: string -> string)
    requires Worthwhile(Scrub(line, replaceEmoji))
    ensures ServerLines(a + [line] + b, replaceEmoji)
            == ServerLines(a, replaceEmoji) + [Scrub(line, replaceEmoji)] + ServerLines(b, replaceEmoji)
  {
    ServerLinesConcat(a + [line], b, replaceEmoji);
    ServerLinesConcat(a, [line], replaceEmoji);
    ServerLinesOne(line, replaceEmoji);
  }

  /** No comment by a person is lost: its lines' candidates come in its
      place among those of the other comments. */
  lemma ServerKeepsPersonComment(a: seq<Comment>, c: Comment, b: seq<Comment>, replaceEmoji: string -> string)
    requires WrittenByPerson(c)
    ensures ServerCandidates(a + [c] + b, replaceEmoji)
            == ServerCandidates(a, replaceEmoji) + ServerLines(SplitLines(c.body), replaceEmoji) + ServerCandidates(b, replaceEmoji)
  {
    ServerCandidatesConcat(a + [c], b, replaceEmoji);
    ServerCandidatesConcat(a, [c], replaceEmoji);
    ServerCandidatesOne(c, replaceEmoji);
  }

  /** A comment with no author, or by AutoModerator or Reddit, contributes
      nothing wherever it stands. */
  lemma ServerSkipsAutomatedComments(a: seq<Comment>, c: Comment, b: seq<Comment>, replaceEmoji: string -> string)
    requires !WrittenByPerson(c)
    ensures ServerCandidates(a + [c] + b, replaceEmoji) == ServerCandidates(a + b, replaceEmoji)
  {
    ServerCandidatesConcat(a + [c], b, replaceEmoji);
    ServerCandidatesConcat(a, [c], replaceEmoji);
    ServerCandidatesConcat(a, b, replaceEmoji);
    assert [c][..0] == [];
  }

  /** Every candidate is some line of the input with URLs and emoji removed. */
  lemma {:induction false} ServerLinesFromInput(lines: seq<string>, replaceEmoji: string -> string)
    ensures forall k :: 0 <= k < |ServerLines(lines, replaceEmoji)| ==>
              exists j :: 0 <= j < |lines| && ServerLines(lines, replaceEmoji)[k] == Scrub(lines[j], replaceEmoji)
    decreases |lines|
  {
    if lines == [] {
      assert ServerLines(lines, replaceEmoji) == [];
    } else {
      var init := lines[..|lines| - 1];
      ServerLinesFromInput(init, replaceEmoji);
      var r := ServerLines(lines, replaceEmoji);
      forall k | 0 <= k < |r| ensures exists j :: 0 <= j < |lines| && r[k] == Scrub(lines[j], replaceEmoji) {
        if k < |ServerLines(init, replaceEmoji)| {
          var j :| 0 <= j < |init| && ServerLines(init, replaceEmoji)[k] == Scrub(init[j], replaceEmoji);
          assert init[j] == lines[j];
        } else {
          assert r[k] == Scrub(lines[|lines| - 1], replaceEmoji);
        }
      }
    }
  }

  // ---------------------------------------------------------------------
  // app.py and run.py

  predicate NonEmpty(s: string) {
    s != ""
  }

  predicate NotBracket(s: string) {
    s != "["
  }

  predicate NotSpaceOnly(s: string) {
    !IsSpaceOnly(s)
  }

  /** app.py and run.py: the chain of comprehensions, stage by stage, over
      the lines of all comments. */
  function ClientChain(lines: seq<string>, replaceEmoji: string -> string): seq<string> {
    var stripped := Map(StripUrls, Filter(NonEmpty, lines));
    var unbracketed := Filter(NotBracket, stripped);
    var scrubbed := Map(replaceEmoji, unbracketed);
    Filter(NonEmpty, Filter(NotSpaceOnly, scrubbed))
  }

  /** app.py and run.py, one line at a time: the candidate a line yields. */
  function ClientLine(line: string, replaceEmoji: string -> string): (r: Option<string>)
    ensures r.Some? ==> r.value != "" && !IsSpaceOnly(r.value)
  {
    if line == "" || StripUrls(line) == "[" then None
    else
      var scrubbed := replaceEmoji(StripUrls(line));
      if scrubbed == "" || IsSpaceOnly(scrubbed) then None else Some(scrubbed)
  }

  function AsSeq(o: Option<string>): seq<string> {
    if o.Some? then [o.value] else []
  }

  /** app.py and run.py: the candidates of a run of lines, line by line. */
  function ClientLines(lines: seq<string>, replaceEmoji: string -> string): (r: seq<string>)
    ensures forall i :: 0 <= i < |r| ==> r[i] != "" && !IsSpaceOnly(r[i])
    decreases |lines|
  {
    if lines == [] then []
    else ClientLines(lines[..|lines| - 1], replaceEmoji) + AsSeq(ClientLine(lines[|lines| - 1], replaceEmoji))
  }

  lemma {:induction false} ClientLinesConcat(a: seq<string>, b: seq<string>, replaceEmoji: string -> string)
    ensures ClientLines(a + b, replaceEmoji) == ClientLines(a, replaceEmoji) + ClientLines(b, replaceEmoji)
    decreases |b|
  {
    if b == [] {
      assert a + b == a;
    } else {
      assert (a + b)[..|a + b| - 1] == a + b[..|b| - 1];
      assert (a + b)[|a + b| - 1] == b[|b| - 1];
      ClientLinesConcat(a, b[..|b| - 1], replaceEmoji);
    }
  }

  lemma {:induction false} ClientChainConcat(a: seq<string>, b: seq<string>, replaceEmoji: string -> string)
    ensures ClientChain(a + b, replaceEmoji) == ClientChain(a, replaceEmoji) + ClientChain(b, replaceEmoji)
  {
    FilterConcat(NonEmpty, a, b);
    var fa, fb := Filter(NonEmpty, a), Filter(NonEmpty, b);
    MapConcat(StripUrls, fa, fb);
    var sa, sb := Map(StripUrls, fa), Map(StripUrls, fb);
    FilterConcat(NotBracket, sa, sb);
    var ua, ub := Filter(NotBracket, sa), Filter(NotBracket, sb);
    MapConcat(replaceEmoji, ua, ub);
    var ea, eb := Map(replaceEmoji, ua), Map(replaceEmoji, ub);
    FilterConcat(NotSpaceOnly, ea, eb);
    FilterConcat(NonEmpty, Filter(NotSpaceOnly, ea), Filter(NotSpaceOnly, eb));
  }

  lemma ClientChainOne(line: string, replaceEmoji: string -> string)
    ensures ClientChain([line], replaceEmoji) == AsSeq(ClientLine(line, replaceEmoji))
  {
    var t := StripUrls(line);
    FilterOne(NonEmpty, line);
    if line == "" {
      assert Filter(NonEmpty, [line]) == [];
      assert Map(StripUrls, []) == [];
      assert Map(replaceEmoji, []) == [];
    } else {
      assert Map(StripUrls, [line]) == [t];
      FilterOne(NotBracket, t);
      if t == "[" {
        assert Map(replaceEmoji, []) == [];
      } else {
        var x := replaceEmoji(t);
        assert Map(replaceEmoji, [t]) == [x];
        FilterOne(NotSpaceOnly, x);
        FilterOne(NonEmpty, x);
      }
    }
  }

  /** The comprehension chain works line by line: running every stage over
      the whole list gives the same candidates, in the same order, as
      deciding each line on its own. */
  lemma {:induction false} ClientChainIsLineByLine(lines: seq<string>, replaceEmoji: string -> string)
    ensures ClientChain(lines, replaceEmoji) == ClientLines(lines, replaceEmoji)
    decreases |lines|
  {
    if lines == [] {
    } else {
      var init, last := lines[..|lines| - 1], lines[|lines| - 1];
      assert lines == init + [last];
      ClientChainConcat(init, [last], replaceEmoji);
      ClientChainOne(last, replaceEmoji);
      ClientChainIsLineByLine(init, replaceEmoji);
    }
  }

  /** app.py and run.py test for "[" before emoji removal: a line that is
      "[" only once its emoji are gone is searched for, where main.py would
      drop it. */
  lemma BracketTestPrecedesEmojiRemoval(line: string, replaceEmoji: string -> string)
    requires line != "" && StripUrls(line) != "[" && replaceEmoji(StripUrls(line)) == "["
    ensures ClientChain([line], replaceEmoji) == ["["]
    ensures ServerLines([line], replaceEmoji) == []
  {
    ClientChainOne(line, replaceEmoji);
    assert [line][..0] == [];
  }

  /** For an emoji remover that leaves "" and "[" alone, app.py/run.py and
      main.py treat a line the same way exactly when the line does not turn
      into "[" through emoji removal alone. */
  lemma ClientAndServerAgreeOnLine(line: string, replaceEmoji: string -> string)
    requires replaceEmoji("") == "" && replaceEmoji("[") == "["
    ensures ClientLines([line], replaceEmoji) == ServerLines([line], replaceEmoji)
            <==> !(StripUrls(line) != "[" && replaceEmoji(StripUrls(line)) == "[")
  {
    assert [line][..0] == [];
    if line == "" {
      assert StripUrls(line) == "";
    }
  }
}
