/** The YouTube helpers (`utils/youtube.ts`): the video-id extractor, which
    behaves like the regular expression
      ^.*(youtu.be\/|v\/|u\/\w\/|embed\/|watch\?v=|&v=)([^#&?]*).*
    and the init-once script loader. */
module YouTube {
  import opened Wrappers

  /** The characters `.` does not match. */
  predicate IsLineTerminator(c: char)
  {
    c == '\n' || c == '\r' || c == '\U{2028}' || c == '\U{2029}'
  }

  /** `\w` */
  predicate IsWordChar(c: char)
  {
    'a' <= c <= 'z' || 'A' <= c <= 'Z' || '0' <= c <= '9' || c == '_'
  }

  /** The characters that end an id: `[^#&?]` excludes them. */
  predicate IsIdDelimiter(c: char)
  {
    c == '#' || c == '&' || c == '?'
  }

  /** Character `c` stands at position `i` of `s`. */
  predicate At(s: string, i: nat, c: char)
  {
    i < |s| && s[i] == c
  }

  /** Length of the prefix alternative that matches at `i`, 0 if none.
      Alternatives are tried in the order of the regular expression. */
  function PrefixAt(s: string, i: nat): (n: nat)
    ensures n != 0 ==> i + n <= |s|
    ensures n in {0, 2, 3, 4, 6, 8, 9}
  {
    if At(s, i, 'y') && At(s, i + 1, 'o') && At(s, i + 2, 'u') && At(s, i + 3, 't') && At(s, i + 4, 'u')
      && i + 5 < |s| && !IsLineTerminator(s[i + 5]) && At(s, i + 6, 'b') && At(s, i + 7, 'e') && At(s, i + 8, '/')
    then 9
    else if At(s, i, 'v') && At(s, i + 1, '/') then 2
    else if At(s, i, 'u') && At(s, i + 1, '/') && i + 2 < |s| && IsWordChar(s[i + 2]) && At(s, i + 3, '/') then 4
    else if At(s, i, 'e') && At(s, i + 1, 'm') && At(s, i + 2, 'b') && At(s, i + 3, 'e') && At(s, i + 4, 'd')
      && At(s, i + 5, '/')
    then 6
    else if At(s, i, 'w') && At(s, i + 1, 'a') && At(s, i + 2, 't') && At(s, i + 3, 'c') && At(s, i + 4, 'h')
      && At(s, i + 5, '?') && At(s, i + 6, 'v') && At(s, i + 7, '=')
    then 8
    else if At(s, i, '&') && At(s, i + 1, 'v') && At(s, i + 2, '=') then 3
    else 0
  }

  /** Index of the first line terminator at or after `i`, or `|s|`: how far the
      leading `.*` can reach. */
  function LineEnd(s: string, i: nat := 0): (e: nat)
    requires i <= |s|
    ensures i <= e <= |s|
    ensures forall k :: i <= k < e ==> !IsLineTerminator(s[k])
    ensures e < |s| ==> IsLineTerminator(s[e])
    decreases |s| - i
  {
    if i == |s| || IsLineTerminator(s[i]) then i else LineEnd(s, i + 1)
  }

  /** The backtracking of the greedy `.*`: the largest position `<= i` at which
      an alternative matches. */
  function FindPrefix(s: string, i: nat): (r: Option<nat>)
    ensures r.Some? ==> r.value <= i && PrefixAt(s, r.value) != 0
    ensures r.Some? ==> forall k :: r.value < k <= i ==> PrefixAt(s, k) == 0
    ensures r.None? ==> forall k :: 0 <= k <= i ==> PrefixAt(s, k) == 0
  {
    if PrefixAt(s, i) != 0 then Some(i)
    else if i == 0 then None
    else FindPrefix(s, i - 1)
  }

  /** Length of the run `[^#&?]*` starting at `j`. */
  function IdRun(s: string, j: nat): (n: nat)
    requires j <= |s|
    ensures j + n <= |s|
    ensures forall k :: j <= k < j + n ==> !IsIdDelimiter(s[k])
    ensures j + n < |s| ==> IsIdDelimiter(s[j + n])
    decreases |s| - j
  {
    if j == |s| || IsIdDelimiter(s[j]) then 0 else 1 + IdRun(s, j + 1)
  }

  /** `getYouTubeVideoId(url)`: capture group 2 of the match, or `''`. */
  function GetYouTubeVideoId(url: string): (id: string)
    ensures forall k :: 0 <= k < |id| ==> !IsIdDelimiter(id[k])
  {
    match FindPrefix(url, LineEnd(url))
    case None => ""
    case Some(i) =>
      var j := i + PrefixAt(url, i);
      url[j..j + IdRun(url, j)]
  }

  /** Characters of a YouTube video id. */
  predicate IsIdChar(c: char)
  {
    IsWordChar(c) || c == '-'
  }

  predicate IsSpecial(c: char)
  {
    c == '/' || c == '?' || c == '&'
  }

  /** Every alternative contains a `/`, `?` or `&`, so no prefix occurs inside
      a run of id characters. */
  lemma PrefixNeedsSpecial(s: string, k: nat)
    requires PrefixAt(s, k) != 0
    ensures exists m :: k <= m < |s| && IsSpecial(s[m])
  {
    var n := PrefixAt(s, k);
    if n == 9 {
      assert IsSpecial(s[k + 8]);
    } else if n == 2 || n == 4 {
      assert IsSpecial(s[k + 1]);
    } else if n == 6 || n == 8 {
      assert IsSpecial(s[k + 5]);
    } else {
      assert IsSpecial(s[k]);
    }
  }

  /** The greedy `.*` makes the rightmost prefix occurrence on the first line
      decide the id, and the id is the longest run free of `#`, `&` and `?`:
      a match of the regular expression at `i` whose group 2 is `r` is exactly
      what the extractor returns. */
  lemma {:induction false} RegexMatchDeterminesId(url: string, i: nat, r: string)
    requires i <= LineEnd(url) && PrefixAt(url, i) != 0
    requires forall k :: i < k <= LineEnd(url) ==> PrefixAt(url, k) == 0
    requires var j := i + PrefixAt(url, i);
      j + |r| <= |url| && url[j..j + |r|] == r
      && (forall k :: 0 <= k < |r| ==> !IsIdDelimiter(r[k]))
      && (j + |r| == |url| || IsIdDelimiter(url[j + |r|]))
    ensures GetYouTubeVideoId(url) == r
  {
    var e := LineEnd(url);
    FindPrefixFindsLast(url, e, i);
    var j := i + PrefixAt(url, i);
    IdRunEndsAtDelimiter(url, j, r);
    assert GetYouTubeVideoId(url) == url[j..j + IdRun(url, j)];
  }

  /** The `[^#&?]*` run is the one that stops at the first delimiter. */
  lemma IdRunEndsAtDelimiter(url: string, j: nat, r: string)
    requires j + |r| <= |url| && url[j..j + |r|] == r
    requires forall k :: 0 <= k < |r| ==> !IsIdDelimiter(r[k])
    requires j + |r| == |url| || IsIdDelimiter(url[j + |r|])
    ensures IdRun(url, j) == |r|
  {
  }

  /** The backward scan stops at the rightmost occurrence. */
  lemma {:induction false} FindPrefixFindsLast(s: string, e: nat, i: nat)
    requires i <= e && PrefixAt(s, i) != 0
    requires forall k :: i < k <= e ==> PrefixAt(s, k) == 0
    ensures FindPrefix(s, e) == Some(i)
    decreases e - i
  {
    if e > i {
      FindPrefixFindsLast(s, e - 1, i);
    }
  }

  /** Conversely, whenever an alternative occurs on the first line, the
      extractor's result is group 2 of a match at the rightmost occurrence:
      it follows that occurrence and stops at the first `#`, `&` or `?`. */
  lemma ExtractorFollowsLastPrefix(url: string) returns (i: nat)
    requires exists k :: 0 <= k <= LineEnd(url) && PrefixAt(url, k) != 0
    ensures i <= LineEnd(url) && PrefixAt(url, i) != 0
    ensures forall k :: i < k <= LineEnd(url) ==> PrefixAt(url, k) == 0
    ensures var j := i + PrefixAt(url, i); var r := GetYouTubeVideoId(url);
      j + |r| <= |url| && url[j..j + |r|] == r
      && (j + |r| == |url| || IsIdDelimiter(url[j + |r|]))
  {
    var f := FindPrefix(url, LineEnd(url));
    assert f.Some?;
    i := f.value;
  }

  /** When no alternative occurs on the first line, the result is `''`. */
  lemma NoPrefixNoId(url: string)
    requires forall k :: 0 <= k <= LineEnd(url) ==> PrefixAt(url, k) == 0
    ensures GetYouTubeVideoId(url) == ""
  {
  }

  /** Appending text without line breaks moves the end of the first line. */
  lemma LineEndAppend(a: string, b: string)
    requires LineEnd(a) == |a|
    ensures LineEnd(a + b) == |a| + LineEnd(b)
  {
    var eb := LineEnd(b);
    if eb < |b| {
      assert (a + b)[|a| + eb] == b[eb];
    }
  }

  /** The shared argument of the URL-shape lemmas: `prefix` is the last
      alternative occurrence and `id` follows it up to the end. */
  lemma {:induction false} IdAfterLastPrefix(base: string, prefix: string, id: string)
    requires LineEnd(base) == |base| && LineEnd(prefix) == |prefix|
    requires forall k :: 0 <= k < |id| ==> IsIdChar(id[k])
    requires |prefix| > 0 && PrefixAt(base + prefix + id, |base|) == |prefix|
    requires forall k :: |base| < k < |base| + |prefix| ==> PrefixAt(base + prefix + id, k) == 0
    ensures GetYouTubeVideoId(base + prefix + id) == id
  {
    var u := base + prefix + id;
    LineEndAppend(base, prefix);
    LineEndAppend(base + prefix, id);
    forall k | |base| < k <= |u| ensures PrefixAt(u, k) == 0 {
      if k >= |base| + |prefix| && PrefixAt(u, k) != 0 {
        PrefixNeedsSpecial(u, k);
      }
    }
    assert u[|base| + |prefix|..|u|] == id;
    RegexMatchDeterminesId(u, |base|, id);
  }

  /** Text without line breaks is one line. */
  lemma {:induction false} LineEndNoBreak(s: string, i: nat)
    requires i <= |s|
    requires forall k :: i <= k < |s| ==> !IsLineTerminator(s[k])
    ensures LineEnd(s, i) == |s|
    decreases |s| - i
  {
    if i < |s| {
      LineEndNoBreak(s, i + 1);
    }
  }

  lemma PrefixesOnOneLine()
    ensures LineEnd("watch?v=") == 8
    ensures LineEnd("embed/") == 6 && LineEnd("v/") == 2 && LineEnd("&v=") == 3
  {
    LineEndNoBreak("watch?v=", 0);
    LineEndNoBreak("embed/", 0);
    LineEndNoBreak("v/", 0);
    LineEndNoBreak("&v=", 0);
  }

  /** `youtu.be/` with character `c` where the unescaped `.` stands. */
  function ShortLinkPrefix(c: char): (p: string)
    ensures |p| == 9
  {
    "youtu" + [c] + "be/"
  }

  lemma ShortLinkPrefixOnOneLine(c: char)
    requires !IsLineTerminator(c)
    ensures LineEnd(ShortLinkPrefix(c)) == 9
  {
    var p := ShortLinkPrefix(c);
    assert forall k :: 0 <= k < 9 ==> !IsLineTerminator(p[k]);
  }

  /** Where the alternatives stand in `base + ShortLinkPrefix(c) + rest`. */
  lemma ShortLinkPrefixes(base: string, c: char, rest: string)
    requires !IsLineTerminator(c)
    ensures PrefixAt(base + ShortLinkPrefix(c) + rest, |base|) == 9
    ensures forall k :: |base| < k < |base| + 9 ==> PrefixAt(base + ShortLinkPrefix(c) + rest, k) == 0
  {
    var u := base + ShortLinkPrefix(c) + rest;
    var b := |base|;
    assert PrefixAt(u, b) == 9;
    forall k | b < k < b + 9 ensures PrefixAt(u, k) == 0 {
      if k == b + 1 {} else if k == b + 2 {} else if k == b + 3 {} else if k == b + 4 {} else if k == b + 5 {} else if k == b + 6 {} else if k == b + 7 {} else {}
    }
  }

  /** `https://youtu.be/<id>`, and any other text before `youtu<c>be/` for a
      character `c` that is not a line break (the `.` is not escaped). */
  lemma ShortLinkId(base: string, c: char, id: string)
    requires LineEnd(base) == |base| && !IsLineTerminator(c)
    requires forall k :: 0 <= k < |id| ==> IsIdChar(id[k])
    ensures GetYouTubeVideoId(base + ShortLinkPrefix(c) + id) == id
  {
    ShortLinkPrefixes(base, c, id);
    ShortLinkPrefixOnOneLine(c);
    IdAfterLastPrefix(base, ShortLinkPrefix(c), id);
  }

  /** Where the alternatives stand in `base + "watch?v=" + rest`. */
  lemma WatchPrefixes(base: string, rest: string)
    ensures PrefixAt(base + "watch?v=" + rest, |base|) == 8
    ensures forall k :: |base| < k < |base| + 8 ==> PrefixAt(base + "watch?v=" + rest, k) == 0
  {
    var u := base + "watch?v=" + rest;
    var b := |base|;
    assert PrefixAt(u, b) == 8;
    forall k | b < k < b + 8 ensures PrefixAt(u, k) == 0 {
      if k == b + 1 {} else if k == b + 2 {} else if k == b + 3 {} else if k == b + 4 {} else if k == b + 5 {} else if k == b + 6 {} else {}
    }
  }

  /** `https://www.youtube.com/watch?v=<id>`, and any other text before `watch?v=`. */
  lemma WatchLinkId(base: string, id: string)
    requires LineEnd(base) == |base|
    requires forall k :: 0 <= k < |id| ==> IsIdChar(id[k])
    ensures GetYouTubeVideoId(base + "watch?v=" + id) == id
  {
    WatchPrefixes(base, id);
    PrefixesOnOneLine();
    IdAfterLastPrefix(base, "watch?v=", id);
  }

  /** Where the alternatives stand in `base + "embed/" + rest`. */
  lemma EmbedPrefixes(base: string, rest: string)
    ensures PrefixAt(base + "embed/" + rest, |base|) == 6
    ensures forall k :: |base| < k < |base| + 6 ==> PrefixAt(base + "embed/" + rest, k) == 0
  {
    var u := base + "embed/" + rest;
    var b := |base|;
    assert PrefixAt(u, b) == 6;
    forall k | b < k < b + 6 ensures PrefixAt(u, k) == 0 {
      if k == b + 1 {} else if k == b + 2 {} else if k == b + 3 {} else if k == b + 4 {} else {}
    }
  }

  /** `https://www.youtube.com/embed/<id>`, and any other text before `embed/`. */
  lemma EmbedLinkId(base: string, id: string)
    requires LineEnd(base) == |base|
    requires forall k :: 0 <= k < |id| ==> IsIdChar(id[k])
    ensures GetYouTubeVideoId(base + "embed/" + id) == id
  {
    EmbedPrefixes(base, id);
    PrefixesOnOneLine();
    IdAfterLastPrefix(base, "embed/", id);
  }

  /** Where the alternatives stand in `base + "v/" + rest`. */
  lemma VPrefixes(base: string, rest: string)
    ensures PrefixAt(base + "v/" + rest, |base|) == 2
    ensures forall k :: |base| < k < |base| + 2 ==> PrefixAt(base + "v/" + rest, k) == 0
  {
    var u := base + "v/" + rest;
    var b := |base|;
    assert PrefixAt(u, b) == 2;
    forall k | b < k < b + 2 ensures PrefixAt(u, k) == 0 {
    }
  }

  /** `https://www.youtube.com/v/<id>`, and any other text before `v/`. */
  lemma VLinkId(base: string, id: string)
    requires LineEnd(base) == |base|
    requires forall k :: 0 <= k < |id| ==> IsIdChar(id[k])
    ensures GetYouTubeVideoId(base + "v/" + id) == id
  {
    VPrefixes(base, id);
    PrefixesOnOneLine();
    IdAfterLastPrefix(base, "v/", id);
  }

  /** Where the alternatives stand in `base + "&v=" + rest`. */
  lemma AmpVPrefixes(base: string, rest: string)
    ensures PrefixAt(base + "&v=" + rest, |base|) == 3
    ensures forall k :: |base| < k < |base| + 3 ==> PrefixAt(base + "&v=" + rest, k) == 0
  {
    var u := base + "&v=" + rest;
    var b := |base|;
    assert PrefixAt(u, b) == 3;
    forall k | b < k < b + 3 ensures PrefixAt(u, k) == 0 {
      if k == b + 1 {} else {}
    }
  }

  /** `...&v=<id>` at the end of a query string. */
  lemma AmpVLinkId(base: string, id: string)
    requires LineEnd(base) == |base|
    requires forall k :: 0 <= k < |id| ==> IsIdChar(id[k])
    ensures GetYouTubeVideoId(base + "&v=" + id) == id
  {
    AmpVPrefixes(base, id);
    PrefixesOnOneLine();
    IdAfterLastPrefix(base, "&v=", id);
  }

  lemma Abc123IsId()
    ensures forall k :: 0 <= k < |"abc123"| ==> IsIdChar("abc123"[k])
  {
  }

  lemma HostOnOneLine()
    ensures LineEnd("https://") == 8
    ensures LineEnd("https://www.youtube.com/") == 24
  {
    LineEndNoBreak("https://", 0);
    LineEndNoBreak("https://www.youtube.com/", 0);
  }

  /** The documented URL shapes give `abc123`. */
  lemma ShortLinkExample()
    ensures GetYouTubeVideoId("https://youtu.be/abc123") == "abc123"
  {
    Abc123IsId();
    HostOnOneLine();
    ShortLinkId("https://", '.', "abc123");
    ShortSpelling();
  }

  lemma ShortSpelling()
    ensures "https://" + ShortLinkPrefix('.') + "abc123" == "https://youtu.be/abc123"
  {
  }

  lemma WatchLinkExample()
    ensures GetYouTubeVideoId("https://www.youtube.com/watch?v=abc123") == "abc123"
  {
    Abc123IsId();
    HostOnOneLine();
    WatchLinkId("https://www.youtube.com/", "abc123");
    WatchSpelling();
  }

  lemma EmbedLinkExample()
    ensures GetYouTubeVideoId("https://www.youtube.com/embed/abc123") == "abc123"
  {
    Abc123IsId();
    HostOnOneLine();
    EmbedLinkId("https://www.youtube.com/", "abc123");
    EmbedSpelling();
  }

  lemma VLinkExample()
    ensures GetYouTubeVideoId("https://www.youtube.com/v/abc123") == "abc123"
  {
    Abc123IsId();
    HostOnOneLine();
    VLinkId("https://www.youtube.com/", "abc123");
    VSpelling();
  }

  lemma WatchSpelling()
    ensures "https://www.youtube.com/" + "watch?v=" + "abc123" == "https://www.youtube.com/watch?v=abc123"
  {
  }

  lemma EmbedSpelling()
    ensures "https://www.youtube.com/" + "embed/" + "abc123" == "https://www.youtube.com/embed/abc123"
  {
  }

  lemma VSpelling()
    ensures "https://www.youtube.com/" + "v/" + "abc123" == "https://www.youtube.com/v/abc123"
  {
  }

  /** The promise `loadYouTubeApi` hands out; it settles when the iframe API
      reports that it is ready. */
  class ApiPromise {
    var resolved: bool

    constructor()
      ensures !resolved
    {
      resolved := false;
    }
  }

  /** The module-level state of `utils/youtube.ts`: the cached promise and the
      script tags added to the page. */
  class ApiLoader {
    var promise: ApiPromise?
    var scriptsInjected: nat

    constructor()
      ensures promise == null && scriptsInjected == 0
    {
      promise := null;
      scriptsInjected := 0;
    }

    /** At most one script tag, and one exactly when a promise exists. */
    ghost predicate Valid()
      reads this
    {
      scriptsInjected == if promise == null then 0 else 1
    }

    /** `loadYouTubeApi()`: the first call creates the promise and injects the
        script; every later call returns the same promise and does nothing else. */
    method Load() returns (p: ApiPromise)
      requires Valid()
      modifies this
      ensures Valid()
      ensures old(promise) != null ==> p == old(promise) && unchanged(this)
      ensures old(promise) == null ==>
        fresh(p) && !p.resolved && promise == p && scriptsInjected == old(scriptsInjected) + 1
    {
      if promise != null {
        return promise;
      }
      p := new ApiPromise();
      scriptsInjected := scriptsInjected + 1;
      promise := p;
    }

    /** `window.onYouTubeIframeAPIReady`: resolves the pending promise. */
    method OnIframeApiReady()
      requires promise != null
      modifies promise
      ensures promise.resolved
    {
      promise.resolved := true;
    }
  }

  /** Any number of `loadYouTubeApi()` calls inject one script and share one promise. */
  method LoadRepeatedly(loader: ApiLoader, n: nat) returns (ps: seq<ApiPromise>)
    requires loader.Valid() && loader.promise == null && n > 0
    modifies loader
    ensures |ps| == n && loader.Valid() && loader.scriptsInjected == 1
    ensures forall k :: 0 <= k < n ==> ps[k] == loader.promise
  {
    var first := loader.Load();
    ps := [first];
    while |ps| < n
      invariant 1 <= |ps| <= n
      invariant loader.Valid() && loader.promise == first && loader.scriptsInjected == 1
      invariant forall k :: 0 <= k < |ps| ==> ps[k] == first
      decreases n - |ps|
    {
      var p := loader.Load();
      ps := ps + [p];
    }
  }
}
