/** The extension's popup: its own copies of the URL recognisers, the payload it
    builds from the form on submit, and the set of tags the user has clicked. */
module Popup {
  import opened Wrappers
  import opened Json
  import Strings
  import Store
  import Social
  import Capture

  /** The popup's inline `detectVideo`: the three YouTube tests of the extension's
      recogniser and no TikTok test, so it agrees with that recogniser except that
      a TikTok link is no video here. */
  function DetectVideo(url: Option<string>): (r: Social.Video)
    ensures r.Video? ==> r.platform == "youtube"
    ensures var full := Social.DetectVideo(url);
      r == if full.Video? && full.platform == "tiktok" then Social.NotVideo else full
  {
    Social.YouTubeVideo(url)
  }

  /** What the popup's inline `detectSocialPost` reports: the platform and the
      author, without the post id. */
  datatype SocialHint = NoPost | Post(platform: string, author: string)

  /** The popup's inline `detectSocialPost`: the same three anchored patterns in the
      same order as the extension's recogniser, reporting the same platform and
      author. */
  function DetectSocialPost(url: Option<string>): (r: SocialHint)
    ensures var full := Social.DetectSocialPost(url);
      && (r.NoPost? <==> full.NotSocial?)
      && (r.Post? ==> r.platform == full.platform && r.author == full.author)
  {
    if url.None? then NoPost
    else
      var s := url.value;
      if Social.Twitter(s).Some? then Post("twitter", Social.Twitter(s).value.0)
      else if Social.Threads(s).Some? then Post("threads", Social.Threads(s).value.0)
      else if Social.Bluesky(s).Some? then Post("bluesky", Social.Bluesky(s).value.0)
      else NoPost
  }

  /** `v || null` for a form field: an empty field is sent as `null`. */
  function NonEmpty(v: string): (r: Option<string>)
    ensures r.None? <==> v == ""
    ensures r.Some? ==> r.value == v
  {
    if v == "" then None else Some(v)
  }

  /** `content.slice(0, 200) || title || null`. */
  function Summary(title: string, content: string): (r: Option<string>)
    ensures r.None? <==> content == "" && title == ""
    ensures content != "" ==> r.Some? && |r.value| <= 200 && Strings.StartsWith(content, r.value) && r.value != ""
    ensures content == "" ==> r == NonEmpty(title)
  {
    if content != "" then Some(Strings.Take(content, 200)) else NonEmpty(title)
  }

  /** The `data` object for each type the form can send (`switch (type)`). */
  function Data(kind: string, title: string, url: string, content: string): (r: Json)
    ensures r.JObj?
    ensures kind == "video" ==> Get(r, "platform") == Some(JStr("youtube"))
    ensures kind == "video" ==>
      Get(r, "video_id") == (if DetectVideo(Some(url)).Video? then Some(JStr(DetectVideo(Some(url)).videoId)) else Some(JNull))
    ensures kind == "tweet" ==> (Get(r, "author") == Some(JNull) <==> DetectSocialPost(Some(url)).NoPost?)
    ensures kind == "tweet" ==> Get(r, "text") == Some(JStr(content))
    ensures kind == "quote" ==> Get(r, "text") == Some(JStr(content)) && Get(r, "source_url") == Some(JStr(url))
    ensures kind !in {"page", "video", "quote", "tweet", "book"} ==> r == JObj([("content", JStr(content))])
  {
    match kind
    case "page" => JObj([("url", JStr(url)), ("title", JStr(title))])
    case "video" => VideoData(title, url)
    case "quote" => QuoteData(url, content)
    case "note" => JObj([("content", JStr(content))])
    case "tweet" => TweetData(url, content)
    case "book" => JObj([("title", JStr(title))])
    case _ => JObj([("content", JStr(content))])
  }

  /** `{url, platform: video.platform ?? 'youtube', video_id: video.video_id ?? null, page_title}` */
  function VideoData(title: string, url: string): (r: Json)
    ensures r.JObj?
    ensures Get(r, "platform") == Some(JStr("youtube"))
    ensures Get(r, "video_id") == (if DetectVideo(Some(url)).Video? then Some(JStr(DetectVideo(Some(url)).videoId)) else Some(JNull))
  {
    var video := DetectVideo(Some(url));
    var fields := [("url", JStr(url)),
                   ("platform", JStr(if video.Video? then video.platform else "youtube")),
                   ("video_id", if video.Video? then JStr(video.videoId) else JNull),
                   ("page_title", JStr(title))];
    Distinct4(fields);
    assert fields[1].0 == "platform" && fields[2].0 == "video_id";
    JObj(fields)
  }

  /** `{text: content, source_url: url}` */
  function QuoteData(url: string, content: string): (r: Json)
    ensures r.JObj? && Get(r, "text") == Some(JStr(content)) && Get(r, "source_url") == Some(JStr(url))
  {
    var fields := [("text", JStr(content)), ("source_url", JStr(url))];
    assert fields[0].0[0] != fields[1].0[0];
    LookupDistinct(fields);
    JObj(fields)
  }

  /** `{url, text: content, author: social.author ?? null, platform: social.platform ?? null}` */
  function TweetData(url: string, content: string): (r: Json)
    ensures r.JObj? && Get(r, "text") == Some(JStr(content))
    ensures Get(r, "author") == Some(JNull) <==> DetectSocialPost(Some(url)).NoPost?
  {
    var social := DetectSocialPost(Some(url));
    var fields := [("url", JStr(url)), ("text", JStr(content)),
                   ("author", if social.Post? then JStr(social.author) else JNull),
                   ("platform", if social.Post? then JStr(social.platform) else JNull)];
    Distinct4(fields);
    assert fields[1].0 == "text" && fields[2].0 == "author";
    JObj(fields)
  }

  /** Lookups in a four-field object literal whose keys differ in length or in
      their first character. */
  lemma Distinct4(fields: seq<(string, Json)>)
    requires |fields| == 4
    requires forall i, j :: 0 <= i < j < 4 ==> |fields[i].0| != |fields[j].0| || (|fields[i].0| > 0 && |fields[j].0| > 0 && fields[i].0[0] != fields[j].0[0])
    ensures forall i :: 0 <= i < 4 ==> Lookup(fields, fields[i].0) == Some(fields[i].1)
  {
    LookupDistinct(fields);
  }

  /** The `SAVE_IDEA` payload the form's submit handler sends. */
  function Payload(kind: string, title: string, url: string, content: string): (r: Capture.IdeaRequest)
    ensures r.kind == kind && r.title == NonEmpty(title) && r.url == NonEmpty(url)
    ensures r.summary == Summary(title, content)
    ensures r.data == Data(kind, title, url, content)
  {
    Capture.IdeaRequest(kind, NonEmpty(title), NonEmpty(url), Summary(title, content), Data(kind, title, url, content))
  }

  /** The tag ids the user has clicked, in the order a JavaScript `Set` keeps them:
      insertion order, without repeats. */
  class TagSelection {
    var selected: seq<string>

    ghost predicate Valid()
      reads this
    {
      NoRepeats(selected)
    }

    constructor ()
      ensures Valid() && selected == []
    {
      selected := [];
    }

    /** A click on a tag: delete its id when it is selected, add it otherwise. */
    method Toggle(id: string)
      requires Valid()
      modifies this
      ensures Valid()
      ensures selected == Toggled(old(selected), id)
    {
      if id in selected {
        RemovedDistinct(selected, id);
        selected := Removed(selected, id);
      } else {
        selected := selected + [id];
      }
    }
  }

  /** `s` without the id. */
  function Removed(s: seq<string>, id: string): (r: seq<string>)
    ensures id !in r
    ensures forall x :: x in r <==> x in s && x != id
    ensures |r| <= |s|
  {
    if |s| == 0 then []
    else if s[0] == id then Removed(s[1..], id)
    else [s[0]] + Removed(s[1..], id)
  }

  predicate NoRepeats(s: seq<string>) {
    forall i, j :: 0 <= i < j < |s| ==> s[i] != s[j]
  }

  lemma {:induction false} RemovedDistinct(s: seq<string>, id: string)
    requires NoRepeats(s)
    ensures NoRepeats(Removed(s, id))
  {
    if |s| > 0 {
      assert forall i, j :: 0 <= i < j < |s[1..]| ==> s[1..][i] == s[i + 1] && s[1..][j] == s[j + 1];
      RemovedDistinct(s[1..], id);
      var t := Removed(s[1..], id);
      if s[0] != id {
        assert s[0] !in s[1..];
        assert s[0] !in t;
        var r := [s[0]] + t;
        forall i, j | 0 <= i < j < |r| ensures r[i] != r[j] {
          assert r[j] == t[j - 1] && t[j - 1] in t;
          if i > 0 {
            assert r[i] == t[i - 1];
          } else {
            assert r[i] == s[0];
          }
        }
        assert Removed(s, id) == r;
      }
    }
  }

  /** The selection after a click on `id`. */
  function Toggled(s: seq<string>, id: string): (r: seq<string>)
    ensures id in r <==> id !in s
    ensures forall x :: x != id ==> (x in r <==> x in s)
  {
    if id in s then Removed(s, id) else s + [id]
  }

  /** Two clicks on the same tag restore the selected set; the order is restored
      too when the tag was not selected before (a re-added id goes to the end). */
  lemma ToggleTwice(s: seq<string>, id: string)
    ensures forall x :: x in Toggled(Toggled(s, id), id) <==> x in s
    ensures id !in s ==> Toggled(Toggled(s, id), id) == s
  {
    if id !in s {
      RemovedAppended(s, id);
    }
  }

  lemma {:induction false} RemovedAppended(s: seq<string>, id: string)
    requires id !in s
    ensures Removed(s + [id], id) == s
  {
    if |s| == 0 {
      assert Removed([id][1..], id) == [];
    } else {
      assert (s + [id])[1..] == s[1..] + [id];
      RemovedAppended(s[1..], id);
    }
  }

  /** The connections sent after the submit: none when the save failed, otherwise
      one `tagged_with` edge from the new idea to each selected tag. */
  method LinkSelected(saved: Result<string>, selected: seq<string>) returns (sent: seq<Capture.ConnectionRequest>)
    ensures saved.Err? ==> sent == []
    ensures saved.Ok? ==> |sent| == |selected|
    ensures saved.Ok? ==>
      forall i :: 0 <= i < |sent| ==> sent[i] == Capture.ConnectionRequest(saved.value, selected[i], Store.TaggedWith)
  {
    if saved.Err? {
      return [];
    }
    sent := Capture.LinkTags(saved.value, selected);
  }
}
