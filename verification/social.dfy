/** The Chrome extension's URL recognisers: is a URL a YouTube or TikTok video,
    and is it a post on X/Twitter, Threads or Bluesky?

    Each regular expression of the source is modelled by a matcher over
    positions. Every repetition in these expressions is followed either by the
    end of the pattern or by a literal whose first character is outside the
    repeated class, so the greedy run is the only one with which a match can
    go on; the matchers therefore take maximal runs, and `RunsAroundComplete`
    proves that no other split of the text is a match. An unanchored
    expression matches at its leftmost starting position (`Leftmost`). */
module Social {
  import opened Wrappers
  import Strings

  /** `\d` */
  predicate IsDigit(c: char) { '0' <= c <= '9' }

  /** `\w`: ASCII letters, digits and `_`. */
  predicate IsWord(c: char) { 'A' <= c <= 'Z' || 'a' <= c <= 'z' || IsDigit(c) || c == '_' }

  /** `[\w-]`: a character of a YouTube video id. */
  predicate IsIdChar(c: char) { IsWord(c) || c == '-' }

  /** `[\w.]`: a character of a TikTok or Threads handle. */
  predicate IsHandleChar(c: char) { IsWord(c) || c == '.' }

  /** `[\w.@]`: a character of a Bluesky handle. */
  predicate IsBskyChar(c: char) { IsHandleChar(c) || c == '@' }

  /** The character classes the expressions use; `Space` is `\s`. */
  datatype Class = Digit | Word | IdChar | HandleChar | BskyChar | Space

  predicate In(c: Class, ch: char) {
    match c
    case Digit => IsDigit(ch)
    case Word => IsWord(ch)
    case IdChar => IsIdChar(ch)
    case HandleChar => IsHandleChar(ch)
    case BskyChar => IsBskyChar(ch)
    case Space => Strings.IsSpace(ch)
  }

  /** Every character of `t` is in the class. */
  predicate Every(t: string, c: Class) {
    forall i :: 0 <= i < |t| ==> In(c, t[i])
  }

  /** The literal `lit` occurs in `s` at position `i`. */
  predicate At(s: string, i: nat, lit: string) {
    i + |lit| <= |s| && s[i..i + |lit|] == lit
  }

  lemma AtFirst(s: string, i: nat, lit: string)
    requires At(s, i, lit) && |lit| > 0
    ensures s[i] == lit[0]
  {
    assert s[i] == s[i..i + |lit|][0];
  }

  lemma EveryIn(s: string, i: nat, j: nat, p: Class)
    requires i <= j <= |s| && forall k :: i <= k < j ==> In(p, s[k])
    ensures Every(s[i..j], p)
  {
    assert forall k :: 0 <= k < j - i ==> s[i..j][k] == s[i + k];
  }

  /** The end of the longest run of class characters starting at `i` (a greedy `p*`). */
  function RunEnd(s: string, i: nat, p: Class): (j: nat)
    requires i <= |s|
    ensures i <= j <= |s|
    ensures forall k :: i <= k < j ==> In(p, s[k])
    ensures j < |s| ==> !In(p, s[j])
    decreases |s| - i
  {
    if i < |s| && In(p, s[i]) then RunEnd(s, i + 1, p) else i
  }

  /** `s[a..u]` is a non-empty run of `cls`, followed by `lit` and then by the
      non-empty run `s[u + |lit|..d]` of `tail`: one way `(cls+)lit(tail+)` can
      match at `a`. */
  predicate Split(s: string, a: nat, u: nat, d: nat, cls: Class, lit: string, tail: Class) {
    && a < u && u + |lit| < d <= |s| && At(s, u, lit)
    && (forall k :: a <= k < u ==> In(cls, s[k]))
    && (forall k :: u + |lit| <= k < d ==> In(tail, s[k]))
  }

  /** `(cls+)lit(tail+)` at `a`, both runs greedy: the ends of the two groups. */
  function RunsAround(s: string, a: nat, cls: Class, lit: string, tail: Class): (r: Option<(nat, nat)>)
    requires a <= |s|
    ensures r.Some? ==> Split(s, a, r.value.0, r.value.1, cls, lit, tail)
    ensures r.Some? && r.value.1 < |s| ==> !In(tail, s[r.value.1])
  {
    var u := RunEnd(s, a, cls);
    if u > a && At(s, u, lit) then
      var d := RunEnd(s, u + |lit|, tail);
      if d > u + |lit| then Some((u, d)) else None
    else None
  }

  /** What the second group of `(cls+)lit(tail+)` captures when it matches at `a`. */
  function SecondGroup(s: string, a: nat, cls: Class, lit: string, tail: Class): (t: string)
    requires a <= |s| && RunsAround(s, a, cls, lit, tail).Some?
    ensures |t| > 0 && Every(t, tail)
  {
    var ud := RunsAround(s, a, cls, lit, tail).value;
    EveryIn(s, ud.0 + |lit|, ud.1, tail);
    s[ud.0 + |lit|..ud.1]
  }

  /** When the literal does not start with a class character, every split of the
      text is found: the first group is the same as in any split and the second
      is the longest one. */
  lemma RunsAroundComplete(s: string, a: nat, u: nat, d: nat, cls: Class, lit: string, tail: Class)
    requires a <= |s| && |lit| > 0 && !In(cls, lit[0])
    requires Split(s, a, u, d, cls, lit, tail)
    ensures RunsAround(s, a, cls, lit, tail).Some?
    ensures RunsAround(s, a, cls, lit, tail).value.0 == u
    ensures d <= RunsAround(s, a, cls, lit, tail).value.1
  {
    assert s[u] == s[u..u + |lit|][0] == lit[0];
    var e := RunEnd(s, a, cls);
    assert e == u;
    var f := RunEnd(s, u + |lit|, tail);
    assert f >= d;
  }

  /** The leftmost position from `k` on at which `p` holds. */
  function Leftmost(s: string, k: nat, p: (string, nat) -> bool): (r: Option<nat>)
    requires k <= |s|
    ensures r.Some? ==> k <= r.value <= |s| && p(s, r.value)
    ensures r.Some? ==> forall i :: k <= i < r.value ==> !p(s, i)
    ensures r.None? <==> forall i :: k <= i <= |s| ==> !p(s, i)
    decreases |s| - k
  {
    if p(s, k) then Some(k) else if k == |s| then None else Leftmost(s, k + 1, p)
  }

  // ---------------------------------------------------------------- videos

  datatype Video = NotVideo | Video(platform: string, videoId: string)

  /** `[?&]v=([\w-]{11})` matches at `k`. */
  predicate WatchAt(s: string, k: nat) {
    k + 14 <= |s| && (s[k] == '?' || s[k] == '&') && s[k + 1] == 'v' && s[k + 2] == '='
    && forall i :: k + 3 <= i < k + 14 ==> IsIdChar(s[i])
  }

  /** `youtu\.be\/([\w-]{11})` matches at `k`. */
  predicate ShortLinkAt(s: string, k: nat) {
    At(s, k, "youtu.be/") && k + 20 <= |s| && forall i :: k + 9 <= i < k + 20 ==> IsIdChar(s[i])
  }

  /** `youtube\.com\/shorts\/([\w-]{11})` matches at `k`. */
  predicate ShortsAt(s: string, k: nat) {
    At(s, k, "youtube.com/shorts/") && k + 30 <= |s| && forall i :: k + 19 <= i < k + 30 ==> IsIdChar(s[i])
  }

  /** `tiktok\.com\/@[\w.]+\/video\/(\d+)` matches at `k`. */
  predicate TikTokAt(s: string, k: nat) {
    At(s, k, "tiktok.com/@") && RunsAround(s, k + 12, HandleChar, "/video/", Digit).Some?
  }

  /** A watch link counts only on a page whose URL mentions `youtube.com`. */
  predicate WatchCounts(s: string) {
    Strings.Contains(s, "youtube.com") && Leftmost(s, 0, WatchAt).Some?
  }

  /** The id the leftmost watch link captures, if there is one. */
  function WatchId(s: string): (r: Option<string>)
    ensures Leftmost(s, 0, WatchAt).None? ==> r.None?
    ensures Leftmost(s, 0, WatchAt).Some? ==>
      var k := Leftmost(s, 0, WatchAt).value;
      WatchAt(s, k) && r == Some(s[k + 3..k + 14])
  {
    match Leftmost(s, 0, WatchAt)
    case None => None
    case Some(k) => Some(s[k + 3..k + 14])
  }

  /** The id the leftmost youtu.be link captures, if there is one. */
  function ShortLinkId(s: string): (r: Option<string>)
    ensures Leftmost(s, 0, ShortLinkAt).None? ==> r.None?
    ensures Leftmost(s, 0, ShortLinkAt).Some? ==>
      var k := Leftmost(s, 0, ShortLinkAt).value;
      ShortLinkAt(s, k) && r == Some(s[k + 9..k + 20])
  {
    match Leftmost(s, 0, ShortLinkAt)
    case None => None
    case Some(k) => Some(s[k + 9..k + 20])
  }

  /** The id the leftmost Shorts link captures, if there is one. */
  function ShortsId(s: string): (r: Option<string>)
    ensures Leftmost(s, 0, ShortsAt).None? ==> r.None?
    ensures Leftmost(s, 0, ShortsAt).Some? ==>
      var k := Leftmost(s, 0, ShortsAt).value;
      ShortsAt(s, k) && r == Some(s[k + 19..k + 30])
  {
    match Leftmost(s, 0, ShortsAt)
    case None => None
    case Some(k) => Some(s[k + 19..k + 30])
  }

  /** The first three tests of `detectVideo`: watch links on youtube.com, then
      youtu.be links, then Shorts, each at its leftmost match. */
  function YouTubeVideo(url: Option<string>): (r: Video)
    ensures url.None? ==> r == NotVideo
    ensures url.Some? && WatchCounts(url.value) ==> r == Video("youtube", WatchId(url.value).value)
    ensures url.Some? && !WatchCounts(url.value) && ShortLinkId(url.value).Some? ==>
      r == Video("youtube", ShortLinkId(url.value).value)
    ensures url.Some? && !WatchCounts(url.value) && ShortLinkId(url.value).None? && ShortsId(url.value).Some? ==>
      r == Video("youtube", ShortsId(url.value).value)
    ensures r.Video? ==> r.platform == "youtube" && |r.videoId| == 11 && Every(r.videoId, IdChar)
    ensures r.NotVideo? <==> (url.None? || (!WatchCounts(url.value)
      && forall k :: 0 <= k <= |url.value| ==> !ShortLinkAt(url.value, k) && !ShortsAt(url.value, k)))
  {
    if url.None? then NotVideo
    else
      var s := url.value;
      if Strings.Contains(s, "youtube.com") && WatchId(s).Some? then Video("youtube", WatchId(s).value)
      else if ShortLinkId(s).Some? then Video("youtube", ShortLinkId(s).value)
      else if ShortsId(s).Some? then Video("youtube", ShortsId(s).value)
      else NotVideo
  }

  /** The digits a TikTok link captures, at its leftmost match. */
  function TikTokId(s: string): (r: Option<string>)
    ensures Leftmost(s, 0, TikTokAt).None? ==> r.None?
    ensures Leftmost(s, 0, TikTokAt).Some? ==> TikTokAt(s, Leftmost(s, 0, TikTokAt).value)
    ensures Leftmost(s, 0, TikTokAt).Some? ==>
      r == Some(SecondGroup(s, Leftmost(s, 0, TikTokAt).value + 12, HandleChar, "/video/", Digit))
    ensures r.None? <==> forall k :: 0 <= k <= |s| ==> !TikTokAt(s, k)
    ensures r.Some? ==> |r.value| > 0 && Every(r.value, Digit)
  {
    var m := Leftmost(s, 0, TikTokAt);
    if m.None? then None
    else
      assert TikTokAt(s, m.value);
      Some(SecondGroup(s, m.value + 12, HandleChar, "/video/", Digit))
  }

  /** `detectVideo` (social.js): the YouTube patterns, then TikTok; `null` or
      `undefined` is not a video. */
  function DetectVideo(url: Option<string>): (r: Video)
    ensures url.None? ==> r == NotVideo
    ensures r.Video? ==> r.platform == "youtube" || r.platform == "tiktok"
    ensures r.Video? && r.platform == "youtube" ==> |r.videoId| == 11 && Every(r.videoId, IdChar)
    ensures r.Video? && r.platform == "tiktok" ==> |r.videoId| > 0 && Every(r.videoId, Digit)
    ensures r.Video? && r.platform == "tiktok" ==> YouTubeVideo(url).NotVideo?
    ensures r.NotVideo? <==> YouTubeVideo(url).NotVideo? && (url.None? || forall k :: 0 <= k <= |url.value| ==> !TikTokAt(url.value, k))
    ensures YouTubeVideo(url).NotVideo? && url.Some? && TikTokId(url.value).Some? ==>
      r == Video("tiktok", TikTokId(url.value).value)
  {
    match YouTubeVideo(url)
    case Video(p, id) => Video(p, id)
    case NotVideo =>
      if url.None? then NotVideo
      else
        match TikTokId(url.value)
        case Some(id) => Video("tiktok", id)
        case None => NotVideo
  }

  /** A YouTube match takes precedence over a TikTok one: whatever the URL, the
      YouTube tests decide whenever one of them matches. */
  lemma YouTubeFirst(url: Option<string>)
    requires YouTubeVideo(url).Video?
    ensures DetectVideo(url) == YouTubeVideo(url)
  {
  }

  /** A watch link on a URL without `youtube.com` is no video unless another pattern matches. */
  lemma WatchNeedsYouTube(s: string, k: nat)
    requires k <= |s| && WatchAt(s, k) && !Strings.Contains(s, "youtube.com")
    requires forall i :: 0 <= i <= |s| ==> !ShortLinkAt(s, i) && !ShortsAt(s, i) && !TikTokAt(s, i)
    ensures DetectVideo(Some(s)) == NotVideo
  {
  }

  /** A watch link, the leftmost one, on a URL mentioning `youtube.com` gives its
      own 11 characters, whatever youtu.be, Shorts or TikTok link follows. */
  lemma WatchRecognised(s: string, k: nat)
    requires k <= |s| && WatchAt(s, k) && forall i :: 0 <= i < k ==> !WatchAt(s, i)
    requires Strings.Contains(s, "youtube.com")
    ensures DetectVideo(Some(s)) == Video("youtube", s[k + 3..k + 14])
  {
    LeftmostIs(s, WatchAt, k);
  }

  /** A watch link followed by a youtu.be link: both patterns match, and the watch
      link's id is the one detected. */
  lemma WatchBeforeShortLink(p: string, a: string, b: string)
    requires |a| == 11 && Every(a, IdChar) && |b| == 11 && Every(b, IdChar)
    requires Strings.Contains(p, "youtube.com") && forall i :: 0 <= i < |p| ==> p[i] != '?' && p[i] != '&'
    ensures var s := p + "?v=" + a + "&u=youtu.be/" + b;
      ShortLinkAt(s, |p| + 17) && DetectVideo(Some(s)) == Video("youtube", a)
  {
    var s := p + "?v=" + a + "&u=youtu.be/" + b;
    var n := |p|;
    assert s[n..] == "?v=" + a + "&u=youtu.be/" + b;
    assert s[n + 3..n + 14] == a;
    assert ShortLinkAt(s, n + 17) by {
      assert s[n + 17..n + 26] == "youtu.be/";
      assert s[n + 26..n + 37] == b;
    }
    forall i | 0 <= i < n ensures !WatchAt(s, i) {
      assert s[i] == p[i];
    }
    var w := Strings.ContainsWitness(p, "youtube.com");
    assert s[w..w + 11] == p[w..w + 11];
    Strings.ContainsAt(s, "youtube.com", w);
    WatchRecognised(s, n);
  }

  /** Without a counting watch link, the leftmost youtu.be link decides, even when
      a Shorts link comes earlier in the URL. */
  lemma ShortLinkRecognised(s: string, k: nat)
    requires k <= |s| && ShortLinkAt(s, k) && forall i :: 0 <= i < k ==> !ShortLinkAt(s, i)
    requires !WatchCounts(s)
    ensures DetectVideo(Some(s)) == Video("youtube", s[k + 9..k + 20])
  {
    LeftmostIs(s, ShortLinkAt, k);
  }

  /** With neither a counting watch link nor a youtu.be link, the leftmost Shorts
      link decides. */
  lemma ShortsRecognised(s: string, k: nat)
    requires k <= |s| && ShortsAt(s, k) && forall i :: 0 <= i < k ==> !ShortsAt(s, i)
    requires !WatchCounts(s) && forall i :: 0 <= i <= |s| ==> !ShortLinkAt(s, i)
    ensures DetectVideo(Some(s)) == Video("youtube", s[k + 19..k + 30])
  {
    LeftmostIs(s, ShortsAt, k);
  }

  /** `tiktok.com/@<handle>/video/<digits>`, the leftmost such link on a URL that
      is no YouTube video, gives all the digits after `/video/`. */
  lemma TikTokRecognised(s: string, k: nat, u: nat, d: nat)
    requires k <= |s| && At(s, k, "tiktok.com/@") && forall i :: 0 <= i < k ==> !TikTokAt(s, i)
    requires Split(s, k + 12, u, d, HandleChar, "/video/", Digit)
    requires YouTubeVideo(Some(s)).NotVideo?
    ensures DetectVideo(Some(s)) == Video("tiktok", s[u + 7..RunEnd(s, u + 7, Digit)])
  {
    TikTokMatch(s, k, u, d);
    LeftmostIs(s, TikTokAt, k);
    assert TikTokId(s) == Some(s[u + 7..RunEnd(s, u + 7, Digit)]);
  }

  lemma TikTokMatch(s: string, k: nat, u: nat, d: nat)
    requires k <= |s| && At(s, k, "tiktok.com/@")
    requires Split(s, k + 12, u, d, HandleChar, "/video/", Digit)
    ensures TikTokAt(s, k)
    ensures SecondGroup(s, k + 12, HandleChar, "/video/", Digit) == s[u + 7..RunEnd(s, u + 7, Digit)]
  {
    RunsAroundComplete(s, k + 12, u, d, HandleChar, "/video/", Digit);
  }

  // ---------------------------------------------------------- social posts

  datatype SocialPost = NotSocial | Social(platform: string, author: string, postId: string)

  /** The URL starts with `http://` or `https://`. */
  predicate Anchored(s: string) {
    At(s, 0, "https://") || At(s, 0, "http://")
  }

  /** Where `^https?:\/\/` ends. */
  function SchemeEnd(s: string): (r: Option<nat>)
    ensures r.Some? ==> r.value <= |s| && Anchored(s)
  {
    if At(s, 0, "https://") then Some(8) else if At(s, 0, "http://") then Some(7) else None
  }

  /** After the host, an optional `@` before the handle (`\/@?`). */
  function SkipAt(s: string, h: nat): (a: nat)
    requires h <= |s|
    ensures h <= a <= |s|
  {
    if h < |s| && s[h] == '@' then h + 1 else h
  }

  /** `@` followed by a handle. */
  function Handle(t: string): (r: string)
    ensures |r| == |t| + 1 && r[0] == '@' && r[1..] == t
  {
    "@" + t
  }

  /** Where the handle of `^https?:\/\/(?:x\.com|twitter\.com)\/@?` starts. */
  function TwitterStart(s: string): (r: Option<nat>)
    ensures r.Some? ==> r.value <= |s| && Anchored(s)
  {
    match SchemeEnd(s)
    case None => None
    case Some(p) =>
      if At(s, p, "x.com/") then Some(SkipAt(s, p + 6))
      else if At(s, p, "twitter.com/") then Some(SkipAt(s, p + 12))
      else None
  }

  /** `^https?:\/\/(?:x\.com|twitter\.com)\/@?([\w]+)\/status\/(\d+)`:
      (author, post id). */
  function Twitter(s: string): (r: Option<(string, string)>)
    ensures r.Some? ==> Anchored(s)
    ensures r.Some? ==> |r.value.0| >= 2 && r.value.0[0] == '@' && Every(r.value.0[1..], Word)
    ensures r.Some? ==> |r.value.1| > 0 && Every(r.value.1, Digit)
  {
    match TwitterStart(s)
    case None => None
    case Some(a) =>
      match RunsAround(s, a, Word, "/status/", Digit)
      case None => None
      case Some((u, d)) => Some((Handle(s[a..u]), s[u + 8..d]))
  }

  /** Where the handle of `^https?:\/\/(?:www\.)?threads\.(?:com|net)\/@` starts. */
  function ThreadsStart(s: string): (r: Option<nat>)
    ensures r.Some? ==> r.value <= |s| && Anchored(s)
  {
    match SchemeEnd(s)
    case None => None
    case Some(p) =>
      var w := if At(s, p, "www.") then p + 4 else p;
      if At(s, w, "threads.") && (At(s, w + 8, "com/@") || At(s, w + 8, "net/@")) then Some(w + 13)
      else None
  }

  /** `^https?:\/\/(?:www\.)?threads\.(?:com|net)\/@([\w.]+)\/post\/([\w]+)`. */
  function Threads(s: string): (r: Option<(string, string)>)
    ensures r.Some? ==> Anchored(s)
    ensures r.Some? ==> |r.value.0| >= 2 && r.value.0[0] == '@' && Every(r.value.0[1..], HandleChar)
    ensures r.Some? ==> |r.value.1| > 0 && Every(r.value.1, Word)
  {
    match ThreadsStart(s)
    case None => None
    case Some(a) =>
      match RunsAround(s, a, HandleChar, "/post/", Word)
      case None => None
      case Some((u, d)) => Some((Handle(s[a..u]), s[u + 6..d]))
  }

  /** Where the handle of `^https?:\/\/bsky\.app\/profile\/` starts. */
  function BlueskyStart(s: string): (r: Option<nat>)
    ensures r.Some? ==> r.value <= |s| && Anchored(s)
  {
    match SchemeEnd(s)
    case None => None
    case Some(p) => if At(s, p, "bsky.app/profile/") then Some(p + 17) else None
  }

  /** `^https?:\/\/bsky\.app\/profile\/([\w.@]+)\/post\/([\w]+)`. */
  function Bluesky(s: string): (r: Option<(string, string)>)
    ensures r.Some? ==> Anchored(s)
    ensures r.Some? ==> |r.value.0| > 0 && Every(r.value.0, BskyChar)
    ensures r.Some? ==> |r.value.1| > 0 && Every(r.value.1, Word)
  {
    match BlueskyStart(s)
    case None => None
    case Some(a) =>
      match RunsAround(s, a, BskyChar, "/post/", Word)
      case None => None
      case Some((u, d)) => Some((s[a..u], s[u + 6..d]))
  }

  /** `detectSocialPost` (social.js): the three patterns in order, the first
      that matches deciding. */
  function DetectSocialPost(url: Option<string>): (r: SocialPost)
    ensures url.None? ==> r == NotSocial
    ensures r.Social? ==> Anchored(url.value)
    ensures r.Social? ==> r.platform in {"twitter", "threads", "bluesky"}
    ensures r.Social? && r.platform != "bluesky" ==> |r.author| >= 2 && r.author[0] == '@'
    ensures r.Social? && r.platform == "twitter" ==> Every(r.postId, Digit)
    ensures r.Social? ==> |r.postId| > 0 && Every(r.postId, Word)
    ensures r.NotSocial? <==> url.None? || (Twitter(url.value).None? && Threads(url.value).None? && Bluesky(url.value).None?)
  {
    if url.None? then NotSocial
    else
      var s := url.value;
      match Twitter(s)
      case Some((a, id)) => Social("twitter", a, id)
      case None =>
        match Threads(s)
        case Some((a, id)) => Social("threads", a, id)
        case None =>
          match Bluesky(s)
          case Some((a, id)) => Social("bluesky", a, id)
          case None => NotSocial
  }

  /** `https://x.com/<handle>/status/<digits>` (or twitter.com, with an optional
      `@` before the handle) is always recognised as that author's post on
      twitter, whatever follows the digits. */
  lemma TwitterRecognised(s: string, a: nat, u: nat, d: nat)
    requires TwitterStart(s) == Some(a)
    requires Split(s, a, u, d, Word, "/status/", Digit)
    ensures DetectSocialPost(Some(s)) == Social("twitter", "@" + s[a..u], s[u + 8..RunEnd(s, u + 8, Digit)])
  {
    RunsAroundComplete(s, a, u, d, Word, "/status/", Digit);
    var e := RunEnd(s, u + 8, Digit);
    assert Twitter(s) == Some((Handle(s[a..u]), s[u + 8..e]));
  }

  /** A Bluesky post URL is recognised as bluesky with the handle as its author:
      neither earlier pattern can match a `bsky.app` URL. */
  lemma BlueskyRecognised(s: string, a: nat, u: nat, d: nat)
    requires BlueskyStart(s) == Some(a)
    requires Split(s, a, u, d, BskyChar, "/post/", Word)
    ensures DetectSocialPost(Some(s)) == Social("bluesky", s[a..u], s[u + 6..RunEnd(s, u + 6, Word)])
  {
    BlueskyHostExcludes(s);
    BlueskyCaptures(s, a, u, d);
  }

  lemma BlueskyCaptures(s: string, a: nat, u: nat, d: nat)
    requires BlueskyStart(s) == Some(a)
    requires Split(s, a, u, d, BskyChar, "/post/", Word)
    ensures Bluesky(s) == Some((s[a..u], s[u + 6..RunEnd(s, u + 6, Word)]))
  {
    RunsAroundComplete(s, a, u, d, BskyChar, "/post/", Word);
  }

  /** A URL whose host is `bsky.app` is neither an X/Twitter nor a Threads URL. */
  lemma BlueskyHostExcludes(s: string)
    requires BlueskyStart(s).Some?
    ensures Twitter(s).None? && Threads(s).None?
  {
    var p := SchemeEnd(s).value;
    AtFirst(s, p, "bsky.app/profile/");
    if At(s, p, "x.com/") { AtFirst(s, p, "x.com/"); }
    if At(s, p, "twitter.com/") { AtFirst(s, p, "twitter.com/"); }
    if At(s, p, "www.") { AtFirst(s, p, "www."); }
    if At(s, p, "threads.") { AtFirst(s, p, "threads."); }
  }

  // ---------------------------------------------------------- page titles

  /** `\s*[-–|]\s*YouTube\s*$` matches at `k`: spaces, a dash, en dash or bar,
      spaces, `YouTube`, and nothing but spaces to the end. */
  predicate YouTubeSuffixAt(s: string, k: nat) {
    k <= |s| &&
    var a := RunEnd(s, k, Space);
    a < |s| && (s[a] == '-' || s[a] == '–' || s[a] == '|') &&
    var b := RunEnd(s, a + 1, Space);
    At(s, b, "YouTube") && forall i :: b + 7 <= i < |s| ==> Strings.IsSpace(s[i])
  }

  /** `title.replace(/\s*[-–|]\s*YouTube\s*$/, '').trim() || title`: the page
      title without its YouTube suffix, or the title itself when nothing is left. */
  function VideoTitle(title: string): (r: string)
    ensures r == title || |r| > 0
    ensures Leftmost(title, 0, YouTubeSuffixAt).None? ==> r == (if Strings.Trim(title) == "" then title else Strings.Trim(title))
    ensures Leftmost(title, 0, YouTubeSuffixAt).Some? ==>
      var k := Leftmost(title, 0, YouTubeSuffixAt).value;
      r == (if Strings.Trim(title[..k]) == "" then title else Strings.Trim(title[..k]))
  {
    var stripped := match Leftmost(title, 0, YouTubeSuffixAt)
      case Some(k) => title[..k]
      case None => title;
    var t := Strings.Trim(stripped);
    if t == "" then title else t
  }

  /** A title ending in ` - YouTube` loses exactly that suffix. */
  lemma VideoTitleStripsSuffix(b: string)
    requires b != "" && Strings.Trim(b) == b
    ensures VideoTitle(b + " - YouTube") == b
  {
    var s := b + " - YouTube";
    assert !Strings.IsSpace(b[|b| - 1]);
    SuffixAtEnd(b);
    forall k | 0 <= k < |b| ensures !YouTubeSuffixAt(s, k) {
      NoSuffixBefore(b, k);
    }
    LeftmostIs(s, YouTubeSuffixAt, |b|);
    assert s[..|b|] == b;
  }

  lemma LeftmostIs(s: string, p: (string, nat) -> bool, n: nat)
    requires n <= |s| && p(s, n) && forall k :: 0 <= k < n ==> !p(s, k)
    ensures Leftmost(s, 0, p) == Some(n)
  {
  }

  lemma SuffixAtEnd(b: string)
    ensures YouTubeSuffixAt(b + " - YouTube", |b|)
  {
    var s := b + " - YouTube";
    var n := |b|;
    var t := " - YouTube";
    assert s[n..] == t;
    assert s[n] == ' ' && s[n + 1] == '-' && s[n + 2] == ' ' && s[n + 3] == 'Y';
    assert In(Space, s[n]) && !In(Space, s[n + 1]);
    assert RunEnd(s, n, Space) == n + 1 by { assert RunEnd(s, n + 1, Space) == n + 1; }
    assert In(Space, s[n + 2]) && !In(Space, s[n + 3]);
    assert RunEnd(s, n + 2, Space) == n + 3 by { assert RunEnd(s, n + 3, Space) == n + 3; }
    assert At(s, n + 3, "YouTube") by { assert s[n + 3..n + 10] == s[n..][3..10]; }
  }

  /** No match of the suffix pattern starts inside a title that does not end in a space. */
  lemma NoSuffixBefore(b: string, k: nat)
    requires k < |b| && !Strings.IsSpace(b[|b| - 1])
    ensures !YouTubeSuffixAt(b + " - YouTube", k)
  {
    var s := b + " - YouTube";
    var n := |b|;
    assert s[n - 1] == b[n - 1] && s[n + 1] == '-' && s[|s| - 1] == 'e';
    var a := RunEnd(s, k, Space);
    assert a < n;
    if a < |s| && (s[a] == '-' || s[a] == '–' || s[a] == '|') {
      var c := RunEnd(s, a + 1, Space);
      if At(s, c, "YouTube") && c + 7 < |s| {
        assert !Strings.IsSpace(s[|s| - 1]);
      }
    }
  }
}
