/** The check app.py and run.py apply to a thread URL: `re.match` of
    `(https?://)?(www\.)?reddit\.com/r/[\w-]+/comments/[\w-]+/?`. `re.match`
    anchors the pattern at the start of the string only, so the trailing
    `/?` never decides anything and whatever follows the post id is ignored.
    Which characters `\w` matches is a parameter. */
module ThreadUrl {
  const HOST: string := "reddit.com/r/"
  const COMMENTS: string := "/comments/"

  /** A character of the class `[\w-]`. */
  predicate WordOrDash(c: char, isWord: char -> bool) {
    isWord(c) || c == '-'
  }

  predicate AllWordOrDash(s: string, isWord: char -> bool) {
    forall i :: 0 <= i < |s| ==> WordOrDash(s[i], isWord)
  }

  /** The length of the `(https?://)?` group. Were the rest not to match
      after taking the group, dropping it cannot help: the text would then
      begin with 'h', which neither "www." nor "reddit.com" does. */
  function SchemeLength(s: string): (n: nat)
    ensures n <= |s|
    ensures n == 0 || s[..n] == "http://" || s[..n] == "https://"
    ensures n == 0 ==> !("http://" <= s) && !("https://" <= s)
  {
    if "https://" <= s then 8 else if "http://" <= s then 7 else 0
  }

  /** The length of the `(www\.)?` group; the same argument applies. */
  function WwwLength(s: string): (n: nat)
    ensures n <= |s|
    ensures n == 0 || s[..n] == "www."
    ensures n == 0 ==> !("www." <= s)
  {
    if "www." <= s then 4 else 0
  }

  /** `[\w-]+/comments/[\w-]` at the start of `s` (what follows `reddit.com/r/`). */
  predicate PostPathAt(s: string, isWord: char -> bool) {
    exists k :: 1 <= k < |s| - 10 && AllWordOrDash(s[..k], isWord)
      && s[k..k + 10] == COMMENTS && WordOrDash(s[k + 10], isWord)
  }

  /** What the `reddit.com/r/` literal is matched against: `url` without
      the optional scheme and "www.". */
  function HostPart(url: string): (r: string)
    ensures |r| <= |url|
  {
    var afterScheme := url[SchemeLength(url)..];
    afterScheme[WwwLength(afterScheme)..]
  }

  /** Whether `re.match(pattern, url)` succeeds. */
  predicate Matches(url: string, isWord: char -> bool) {
    HOST <= HostPart(url) && PostPathAt(HostPart(url)[|HOST|..], isWord)
  }

  /** The text scheme, "www.", "reddit.com/r/", subreddit, "/comments/",
      post id and rest, one after the other. */
  function ThreadForm(scheme: string, www: string, sub: string, post: string, rest: string): string {
    scheme + (www + (HOST + (sub + (COMMENTS + (post + rest)))))
  }

  lemma SchemeSkipped(scheme: string, x: string)
    requires scheme == "" || scheme == "http://" || scheme == "https://"
    requires |x| > 0 && (x[0] == 'w' || x[0] == 'r')
    ensures (scheme + x)[SchemeLength(scheme + x)..] == x
  {
    var url := scheme + x;
    if scheme == "" {
      assert url[0] == x[0];
      assert !("http://" <= url) && !("https://" <= url);
    } else if scheme == "http://" {
      assert url[4] == ':';
      assert !("https://" <= url);
      assert url[..7] == scheme;
    } else {
      assert url[..8] == scheme;
    }
  }

  lemma WwwSkipped(www: string, y: string)
    requires www == "" || www == "www."
    requires |y| > 0 && y[0] == 'r'
    ensures (www + y)[WwwLength(www + y)..] == y
  {
    if www == "" {
      assert (www + y)[0] == 'r';
    } else {
      assert (www + y)[..4] == www;
    }
  }

  lemma PostPathFound(sub: string, post: string, rest: string, isWord: char -> bool)
    requires |sub| >= 1 && AllWordOrDash(sub, isWord)
    requires |post| >= 1 && AllWordOrDash(post, isWord)
    ensures PostPathAt(sub + (COMMENTS + (post + rest)), isWord)
  {
    var s := sub + (COMMENTS + (post + rest));
    var k := |sub|;
    assert s[..k] == sub;
    assert s[k..k + 10] == COMMENTS;
    assert s[k + 10] == post[0];
  }

  lemma HostPartSkips(scheme: string, www: string, tail: string)
    requires scheme == "" || scheme == "http://" || scheme == "https://"
    requires www == "" || www == "www."
    ensures HostPart(scheme + (www + (HOST + tail))) == HOST + tail
  {
    var hosted := HOST + tail;
    assert hosted[0] == 'r';
    WwwSkipped(www, hosted);
    assert (www + hosted)[0] == 'w' || (www + hosted)[0] == 'r';
    SchemeSkipped(scheme, www + hosted);
  }

  lemma MatchesWith(url: string, tail: string, isWord: char -> bool)
    requires HostPart(url) == HOST + tail && PostPathAt(tail, isWord)
    ensures Matches(url, isWord)
  {
    assert (HOST + tail)[..|HOST|] == HOST;
    assert (HOST + tail)[|HOST|..] == tail;
  }

  /** Every string of the form scheme, "www.", "reddit.com/r/", a subreddit,
      "/comments/", a post id and anything at all is accepted. */
  lemma AcceptsThreadUrl(url: string, scheme: string, www: string, sub: string, post: string, rest: string, isWord: char -> bool)
    requires url == ThreadForm(scheme, www, sub, post, rest)
    requires scheme == "" || scheme == "http://" || scheme == "https://"
    requires www == "" || www == "www."
    requires |sub| >= 1 && AllWordOrDash(sub, isWord)
    requires |post| >= 1 && AllWordOrDash(post, isWord)
    ensures Matches(url, isWord)
  {
    var tail := sub + (COMMENTS + (post + rest));
    HostPartSkips(scheme, www, tail);
    PostPathFound(sub, post, rest, isWord);
    MatchesWith(url, tail, isWord);
  }

  /** Conversely, an accepted string has exactly that form: scheme, "www.",
      "reddit.com/r/", a non-empty `[\w-]` subreddit, "/comments/", a
      non-empty `[\w-]` start of a post id, and an unchecked rest. */
  lemma AcceptedHasThreadForm(url: string, isWord: char -> bool)
      returns (scheme: string, www: string, sub: string, post: string, rest: string)
    requires Matches(url, isWord)
    ensures url == ThreadForm(scheme, www, sub, post, rest)
    ensures scheme == "" || scheme == "http://" || scheme == "https://"
    ensures www == "" || www == "www."
    ensures |sub| >= 1 && AllWordOrDash(sub, isWord)
    ensures |post| == 1 && AllWordOrDash(post, isWord)
  {
    scheme, www := HostPrefix(url);
    sub, post, rest := HostParts(HostPart(url), isWord);
  }

  lemma HostParts(h: string, isWord: char -> bool) returns (sub: string, post: string, rest: string)
    requires HOST <= h && PostPathAt(h[|HOST|..], isWord)
    ensures h == HOST + (sub + (COMMENTS + (post + rest)))
    ensures |sub| >= 1 && AllWordOrDash(sub, isWord)
    ensures |post| == 1 && AllWordOrDash(post, isWord)
  {
    var s := h[|HOST|..];
    assert h == HOST + s by {
      assert h[..|HOST|] == HOST;
    }
    sub, post, rest := PostPathParts(s, isWord);
  }

  lemma HostPrefix(url: string) returns (scheme: string, www: string)
    ensures url == scheme + (www + HostPart(url))
    ensures scheme == "" || scheme == "http://" || scheme == "https://"
    ensures www == "" || www == "www."
  {
    var afterScheme := url[SchemeLength(url)..];
    scheme, www := url[..SchemeLength(url)], afterScheme[..WwwLength(afterScheme)];
    assert url == scheme + afterScheme;
    assert afterScheme == www + HostPart(url);
  }

  lemma PostPathParts(s: string, isWord: char -> bool) returns (sub: string, post: string, rest: string)
    requires PostPathAt(s, isWord)
    ensures s == sub + (COMMENTS + (post + rest))
    ensures |sub| >= 1 && AllWordOrDash(sub, isWord)
    ensures |post| == 1 && AllWordOrDash(post, isWord)
  {
    var k :| 1 <= k < |s| - 10 && AllWordOrDash(s[..k], isWord)
      && s[k..k + 10] == COMMENTS && WordOrDash(s[k + 10], isWord);
    sub, post, rest := s[..k], s[k + 10..k + 11], s[k + 11..];
    assert AllWordOrDash(post, isWord) by {
      assert post[0] == s[k + 10];
    }
    CommentsAt(s, k);
  }

  /** Cutting `s` around a "/comments/" at `k`. */
  lemma CommentsAt(s: string, k: nat)
    requires k + 11 <= |s| && s[k..k + 10] == COMMENTS
    ensures s == s[..k] + (COMMENTS + (s[k + 10..k + 11] + s[k + 11..]))
  {
    assert s[k + 10..] == s[k + 10..k + 11] + s[k + 11..];
    assert s[k..] == s[k..k + 10] + s[k + 10..];
    assert s == s[..k] + s[k..];
  }

  /** Appending to the rest of a thread form appends to the whole. */
  lemma ThreadFormExtends(scheme: string, www: string, sub: string, post: string, rest: string, tail: string)
    ensures ThreadForm(scheme, www, sub, post, rest) + tail == ThreadForm(scheme, www, sub, post, rest + tail)
  {
    var inner := post + rest;
    assert inner + tail == post + (rest + tail);
    var comments := COMMENTS + inner;
    assert comments + tail == COMMENTS + (inner + tail);
    var path := sub + comments;
    assert path + tail == sub + (comments + tail);
    var hosted := HOST + path;
    assert hosted + tail == HOST + (path + tail);
    var prefixed := www + hosted;
    assert prefixed + tail == www + (hosted + tail);
    assert (scheme + prefixed) + tail == scheme + (prefixed + tail);
  }

  /** The match is a prefix match: whatever is appended to an accepted
      string, the result is accepted too. */
  lemma MatchIgnoresSuffix(url: string, tail: string, isWord: char -> bool)
    requires Matches(url, isWord)
    ensures Matches(url + tail, isWord)
  {
    var scheme, www, sub, post, rest := AcceptedHasThreadForm(url, isWord);
    ThreadFormExtends(scheme, www, sub, post, rest, tail);
    AcceptsThreadUrl(url + tail, scheme, www, sub, post, rest + tail, isWord);
  }
}
