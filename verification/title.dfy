/** The playlist name app.py and run.py build from the thread's title: the
    title lowercased, with every '?' removed, split into tokens, without the
    English stopwords, joined with single spaces. Lowercasing, the nltk
    tokenizer and the stopword list are parameters. */
module Title {
  import opened Seqs
  import opened Text

  /** `[w for w in tokens if not w in stop_words]` */
  function NonStopWords(tokens: seq<string>, stopWords: set<string>): (kept: seq<string>)
    ensures |kept| <= |tokens|
    ensures forall i :: 0 <= i < |kept| ==> kept[i] !in stopWords
    ensures forall i :: 0 <= i < |kept| ==> kept[i] in tokens
    ensures forall i :: 0 <= i < |tokens| && tokens[i] !in stopWords ==> tokens[i] in kept
    decreases |tokens|
  {
    if tokens == [] then []
    else
      var last := tokens[|tokens| - 1];
      NonStopWords(tokens[..|tokens| - 1], stopWords) + (if last in stopWords then [] else [last])
  }

  /** The filter keeps the tokens' order: filtering two runs of tokens gives
      the kept tokens of the first followed by those of the second. */
  lemma {:induction false} NonStopWordsConcat(a: seq<string>, b: seq<string>, stopWords: set<string>)
    ensures NonStopWords(a + b, stopWords) == NonStopWords(a, stopWords) + NonStopWords(b, stopWords)
    decreases |b|
  {
    if b == [] {
      assert a + b == a;
    } else {
      assert (a + b)[..|a + b| - 1] == a + b[..|b| - 1];
      assert (a + b)[|a + b| - 1] == b[|b| - 1];
      NonStopWordsConcat(a, b[..|b| - 1], stopWords);
    }
  }

  /** A stopword is dropped wherever it stands, and nothing else moves. */
  lemma DropsStopWord(a: seq<string>, w: string, b: seq<string>, stopWords: set<string>)
    requires w in stopWords
    ensures NonStopWords(a + [w] + b, stopWords) == NonStopWords(a + b, stopWords)
  {
    assert NonStopWords([w], stopWords) == [] by {
      assert [w][..0] == [];
    }
    calc {
      NonStopWords(a + [w] + b, stopWords);
      { NonStopWordsConcat(a + [w], b, stopWords); }
      NonStopWords(a + [w], stopWords) + NonStopWords(b, stopWords);
      { NonStopWordsConcat(a, [w], stopWords); }
      NonStopWords(a, stopWords) + NonStopWords(b, stopWords);
      { NonStopWordsConcat(a, b, stopWords); }
      NonStopWords(a + b, stopWords);
    }
  }

  /** Tokens that are not stopwords all stay, in order. */
  lemma {:induction false} KeepsNonStopWords(tokens: seq<string>, stopWords: set<string>)
    requires forall i :: 0 <= i < |tokens| ==> tokens[i] !in stopWords
    ensures NonStopWords(tokens, stopWords) == tokens
    decreases |tokens|
  {
    if tokens != [] {
      KeepsNonStopWords(tokens[..|tokens| - 1], stopWords);
    }
  }

  /** `title.lower().replace("?", "")`, the text handed to the tokenizer. */
  function Normalised(title: string, lower: string -> string): (t: string)
    ensures '?' !in t
  {
    Remove(lower(title), '?')
  }

  /** `create_playlist_title_from_post_title` (app.py, run.py). */
  function PlaylistTitle(title: string, lower: string -> string, tokenize: string -> seq<string>,
                         stopWords: set<string>): string
  {
    Join(NonStopWords(tokenize(Normalised(title, lower)), stopWords), " ")
  }

  /** When at least one token survives and no token holds a space, the words
      of the playlist name, split at single spaces, are exactly the tokens
      that are not stopwords, in order. */
  lemma TitleWords(title: string, lower: string -> string, tokenize: string -> seq<string>,
                   stopWords: set<string>)
    requires NonStopWords(tokenize(Normalised(title, lower)), stopWords) != []
    requires forall i :: 0 <= i < |tokenize(Normalised(title, lower))| ==> ' ' !in tokenize(Normalised(title, lower))[i]
    ensures Split(PlaylistTitle(title, lower, tokenize, stopWords), ' ')
            == NonStopWords(tokenize(Normalised(title, lower)), stopWords)
  {
    var kept := NonStopWords(tokenize(Normalised(title, lower)), stopWords);
    SplitJoin(kept, ' ');
  }

  /** Every character of `sep.join(parts)` is a character of the separator
      or of one of the parts. */
  lemma {:induction false} JoinChars(parts: seq<string>, sep: string)
    ensures forall k :: 0 <= k < |Join(parts, sep)| ==>
              Join(parts, sep)[k] in sep || exists i :: 0 <= i < |parts| && Join(parts, sep)[k] in parts[i]
    decreases |parts|
  {
    if |parts| > 1 {
      JoinChars(parts[1..], sep);
      var j := Join(parts, sep);
      var tail := Join(parts[1..], sep);
      assert j == parts[0] + sep + tail;
      forall k | 0 <= k < |j|
        ensures j[k] in sep || exists i :: 0 <= i < |parts| && j[k] in parts[i]
      {
        if k < |parts[0]| {
          assert j[k] == parts[0][k];
        } else if k < |parts[0]| + |sep| {
          assert j[k] == sep[k - |parts[0]|];
        } else {
          assert j[k] == tail[k - |parts[0]| - |sep|];
          if tail[k - |parts[0]| - |sep|] !in sep {
            var i :| 0 <= i < |parts[1..]| && tail[k - |parts[0]| - |sep|] in parts[1..][i];
            assert parts[1..][i] == parts[i + 1];
          }
        }
      }
    } else if |parts| == 1 {
      assert Join(parts, sep) == parts[0];
    }
  }

  /** The tokenizer introduces no '?': it may rewrite its input (nltk turns
      '"' into "``" and "''"), but a text without '?' gives tokens without
      '?'. */
  ghost predicate AddsNoQuestionMark(tokenize: string -> seq<string>) {
    forall s, i :: '?' !in s && 0 <= i < |tokenize(s)| ==> '?' !in tokenize(s)[i]
  }

  /** The playlist name holds no '?' for any tokenizer that introduces none:
      '?' is removed after lowercasing, so even a lowercasing that produces
      '?' cannot bring one back. */
  lemma TitleHasNoQuestionMark(title: string, lower: string -> string, tokenize: string -> seq<string>,
                               stopWords: set<string>)
    requires AddsNoQuestionMark(tokenize)
    ensures '?' !in PlaylistTitle(title, lower, tokenize, stopWords)
  {
    var t := Normalised(title, lower);
    var kept := NonStopWords(tokenize(t), stopWords);
    var name := PlaylistTitle(title, lower, tokenize, stopWords);
    JoinChars(kept, " ");
    forall k | 0 <= k < |name| ensures name[k] != '?' {
      if name[k] !in " " {
        var i :| 0 <= i < |kept| && name[k] in kept[i];
        var m :| 0 <= m < |tokenize(t)| && tokenize(t)[m] == kept[i];
        assert '?' !in tokenize(t)[m];
      }
    }
  }
}
