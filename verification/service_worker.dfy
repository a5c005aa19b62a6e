/** The extension's background service worker: the two calls it makes to the
    Worker (`apiPost`, `apiGet`), the requests its three context-menu entries
    send, and its answers to the popup's messages. The network is a parameter:
    `fetch` maps each request to the reply it gets. */
module ServiceWorker {
  import opened Wrappers
  import opened Json
  import Strings
  import Numbers
  import Errors
  import Social
  import Capture

  // ---------------------------------------------------------------- configuration and requests

  /** `sfl_api_url` and `sfl_api_key` as the options page stored them. */
  datatype Config = Config(apiUrl: Option<string>, apiKey: Option<string>)

  /** Neither value is missing or empty. */
  predicate Configured(c: Config) {
    c.apiUrl.Some? && c.apiUrl.value != "" && c.apiKey.Some? && c.apiKey.value != ""
  }

  const NotConfigured := "SFL not configured. Open the extension options page."

  /** `${base.replace(/\/$/, '')}${path}`: one trailing slash of the base is dropped. */
  function JoinUrl(base: string, path: string): (r: string)
    ensures Strings.EndsWith(r, path)
    ensures |r| == |base| + |path| - (if base != "" && base[|base| - 1] == '/' then 1 else 0)
    ensures r[..|r| - |path|] == base[..|r| - |path|]
  {
    var stem := if base != "" && base[|base| - 1] == '/' then base[..|base| - 1] else base;
    assert (stem + path)[|stem|..] == path;
    stem + path
  }

  /** A base with and without its trailing slash gives the same URL. */
  lemma JoinUrlSlash(base: string, path: string)
    requires base == "" || base[|base| - 1] != '/'
    ensures JoinUrl(base + "/", path) == JoinUrl(base, path) == base + path
  {
    var one := base + "/";
    assert one[..|one| - 1] == base;
  }

  /** Only one trailing slash is dropped. */
  lemma JoinUrlOneSlash(base: string, path: string)
    ensures JoinUrl(base + "//", path) == base + "/" + path
  {
    var two := base + "//";
    assert two[..|two| - 1] == base + "/";
  }

  /** What is sent to `fetch`: a method, a URL, headers, and a JSON text, a form
      holding one file, or nothing. */
  datatype Payload = NoPayload | JsonText(json: Json) | FileForm(field: string, filename: string)
  datatype Request = Request(verb: string, url: string, headers: seq<(string, string)>, payload: Payload)

  /** What `fetch` yields: a response with its status, status text and its body
      read as JSON (`Err` when it is not JSON), or a network failure. */
  datatype Reply = Response(status: int, statusText: string, body: Result<Json>) | NetworkError(message: string)

  /** `res.ok`. */
  predicate Succeeded(r: Reply)
    requires r.Response?
  {
    200 <= r.status <= 299
  }

  /** `JSON.stringify(body)`: a missing payload sends no body. */
  function JsonPayload(body: Option<Json>): (p: Payload)
    ensures p.JsonText? <==> body.Some?
    ensures p.JsonText? ==> p.json == body.value
    ensures !p.FileForm?
  {
    if body.Some? then JsonText(body.value) else NoPayload
  }

  /** The request `apiPost(path, body)` sends. */
  function PostRequest(c: Config, path: string, body: Option<Json>): (q: Request)
    requires Configured(c)
    ensures q.verb == "POST" && q.url == JoinUrl(c.apiUrl.value, path)
    ensures |q.headers| > 0 && q.headers[0] == ("Authorization", "Bearer " + c.apiKey.value)
  {
    Request("POST", JoinUrl(c.apiUrl.value, path),
            [("Authorization", "Bearer " + c.apiKey.value), ("Content-Type", "application/json")],
            JsonPayload(body))
  }

  /** The request `apiGet(path)` sends. */
  function GetRequest(c: Config, path: string): (q: Request)
    requires Configured(c)
    ensures q.verb == "GET" && q.url == JoinUrl(c.apiUrl.value, path) && q.payload == NoPayload
    ensures q.headers == [("Authorization", "Bearer " + c.apiKey.value)]
  {
    Request("GET", JoinUrl(c.apiUrl.value, path), [("Authorization", "Bearer " + c.apiKey.value)], NoPayload)
  }

  // ---------------------------------------------------------------- apiPost and apiGet

  /** The message of the `TypeError` V8 throws for `null.error`. */
  const NullErrorRead := "Cannot read properties of null (reading 'error')"

  /** The message `apiPost` throws for a response that is not ok:
      `(await res.json().catch(() => ({error: res.statusText}))).error ?? 'HTTP ' + status`. */
  function FailureMessage(r: Reply): (m: string)
    requires r.Response?
    ensures r.body.Err? ==> m == r.statusText
    ensures r.body == Ok(JNull) ==> m == NullErrorRead
    ensures r.body.Ok? && Get(r.body.value, "error").Some? && Get(r.body.value, "error").value.JStr? ==>
      m == Get(r.body.value, "error").value.s
    ensures r.body.Ok? && r.body.value != JNull && (Get(r.body.value, "error").None? || Get(r.body.value, "error") == Some(JNull)) ==>
      m == "HTTP " + Numbers.IntToString(r.status)
  {
    match r.body
    case Err(_) => r.statusText
    case Ok(j) =>
      if j == JNull then NullErrorRead
      else
        match Get(j, "error")
        case None => "HTTP " + Numbers.IntToString(r.status)
        case Some(e) => if e == JNull then "HTTP " + Numbers.IntToString(r.status) else ToText(e)
  }

  /** `apiPost(path, body)`: throws when the extension is not configured, when the
      network fails, and when the response is not ok; otherwise yields the parsed
      body (a body that is no JSON throws the parser's error). */
  function ApiPost(c: Config, path: string, body: Option<Json>, fetch: Request -> Reply): (r: Result<Json>)
    ensures !Configured(c) ==> r == Err(NotConfigured)
    ensures Configured(c) ==>
      var reply := fetch(PostRequest(c, path, body));
      && (reply.NetworkError? ==> r == Err(reply.message))
      && (reply.Response? && !Succeeded(reply) ==> r == Err(FailureMessage(reply)))
      && (reply.Response? && Succeeded(reply) ==> r == reply.body)
  {
    if !Configured(c) then Err(NotConfigured)
    else
      match fetch(PostRequest(c, path, body))
      case NetworkError(m) => Err(m)
      case Response(status, statusText, parsed) =>
        if 200 <= status <= 299 then parsed
        else Err(FailureMessage(Response(status, statusText, parsed)))
  }

  /** `apiGet(path)`: `null` when the extension is not configured or the response
      is not ok; otherwise the parsed body. A network failure or a body that is no
      JSON rejects. */
  function ApiGet(c: Config, path: string, fetch: Request -> Reply): (r: Result<Json>)
    ensures !Configured(c) ==> r == Ok(JNull)
    ensures Configured(c) ==>
      var reply := fetch(GetRequest(c, path));
      && (reply.NetworkError? ==> r == Err(reply.message))
      && (reply.Response? && !Succeeded(reply) ==> r == Ok(JNull))
      && (reply.Response? && Succeeded(reply) ==> r == reply.body)
  {
    if !Configured(c) then Ok(JNull)
    else
      match fetch(GetRequest(c, path))
      case NetworkError(m) => Err(m)
      case Response(status, _, parsed) =>
        if 200 <= status <= 299 then parsed else Ok(JNull)
  }

  /** Without configuration `apiPost` throws and `apiGet` answers `null`, and
      neither depends on the network. */
  lemma UnconfiguredCalls(c: Config, path: string, body: Option<Json>, f: Request -> Reply, g: Request -> Reply)
    requires !Configured(c)
    ensures ApiPost(c, path, body, f) == ApiPost(c, path, body, g) == Err(NotConfigured)
    ensures ApiGet(c, path, f) == ApiGet(c, path, g) == Ok(JNull)
  {
  }

  /** An error response of the Worker (`{error: message}` with a status outside
      200-299) surfaces in the extension as exactly its message. */
  lemma WorkerErrorSurfaces(c: Config, path: string, body: Option<Json>, fetch: Request -> Reply, message: string)
    requires Configured(c)
    requires var reply := fetch(PostRequest(c, path, body));
      && reply.Response? && !Succeeded(reply) && reply.body == Ok(Errors.ErrorJson(message))
    ensures ApiPost(c, path, body, fetch) == Err(message)
  {
    var reply := fetch(PostRequest(c, path, body));
    assert Get(Errors.ErrorJson(message), "error") == Some(JStr(message));
  }

  /** The same holds for each of the Worker's shared error responses. */
  lemma SharedErrorsSurface(c: Config, path: string, body: Option<Json>, fetch: Request -> Reply, r: Errors.Response)
    requires Configured(c)
    requires r == Errors.NotFound(None) || r == Errors.BadRequest(None) || r == Errors.Unauthorized()
          || r == Errors.ServerError(None)
    requires fetch(PostRequest(c, path, body)) == Response(r.status, "", Ok(r.body.json))
    ensures ApiPost(c, path, body, fetch) == Err(Errors.ErrorMessage(r).value)
  {
    WorkerErrorSurfaces(c, path, body, fetch, Errors.ErrorMessage(r).value);
  }

  // ---------------------------------------------------------------- context menu

  /** The tab a menu entry was clicked in; its URL can be missing. */
  datatype Tab = Tab(url: Option<string>, title: string)

  /** `info.menuItemId`, `info.selectionText` and `info.srcUrl`. */
  datatype ClickInfo = ClickInfo(menuItemId: string, selectionText: Option<string>, srcUrl: Option<string>)

  const SaveSelectionItem := "sfl-save-selection"
  const SavePageItem := "sfl-save-page"
  const SaveImageItem := "sfl-save-image"

  /** `key: value` in an object literal, left out of the JSON text when the value
      is `undefined`. */
  function Field(key: string, v: Option<string>): seq<(string, Json)> {
    if v.Some? then [(key, JStr(v.value))] else []
  }

  /** The quote `handleSaveSelection` creates from the selected text (`''` when
      there is none): its first 80 characters as title, its first 200 as summary. */
  function SelectionRequest(info: ClickInfo, tab: Tab): (q: Capture.IdeaRequest)
    ensures var text := info.selectionText.GetOr("");
      && q.kind == "quote" && q.url == tab.url
      && q.title.Some? && |q.title.value| == (if |text| < 80 then |text| else 80)
      && q.summary.Some? && |q.summary.value| == (if |text| < 200 then |text| else 200)
      && Get(q.data, "text") == Some(JStr(text))
  {
    var text := info.selectionText.GetOr("");
    Capture.IdeaRequest("quote", Some(Strings.Take(text, 80)), tab.url, Some(Strings.Take(text, 200)),
      JObj([("text", JStr(text))] + Field("source_url", tab.url) + [("page_title", JStr(tab.title))]))
  }

  /** The selection's title starts its summary and the summary starts the
      selected text; a selection of at most 80 characters is all three. */
  lemma SelectionNests(info: ClickInfo, tab: Tab)
    ensures var q := SelectionRequest(info, tab);
      var text := info.selectionText.GetOr("");
      && Strings.StartsWith(q.summary.value, q.title.value)
      && Strings.StartsWith(text, q.summary.value)
      && (|text| <= 80 ==> q.title == q.summary == Some(text))
  {
    var q := SelectionRequest(info, tab);
    var text := info.selectionText.GetOr("");
    assert q.title.value == text[..|q.title.value|];
    assert q.summary.value == text[..|q.summary.value|];
    assert q.summary.value[..|q.title.value|] == text[..|q.title.value|];
  }

  /** `{url, ...rest}`: the tab's URL first, left out of the JSON text when the
      tab has none. */
  function WithUrl(url: Option<string>, rest: seq<(string, Json)>): (j: Json)
    ensures j.JObj?
    ensures forall key :: key != "url" ==> Get(j, key) == Lookup(rest, key)
  {
    var head := Field("url", url);
    forall key | key != "url" ensures Lookup(head + rest, key) == Lookup(rest, key) {
      if |head| == 1 {
        assert (head + rest)[1..] == rest;
      } else {
        assert head + rest == rest;
      }
    }
    JObj(head + rest)
  }

  /** The post `handleSavePage` creates for a social post: the text pulled from
      the page as title (its first 80 characters) and summary (its first 200),
      and the page title in their place when no text was found. */
  function TweetRequest(tab: Tab, post: Social.SocialPost, postText: string): (q: Capture.IdeaRequest)
    requires post.Social?
    ensures q.kind == "tweet" && q.url == tab.url
    ensures postText != "" ==> q.title == Some(Strings.Take(postText, 80)) && q.summary == Some(Strings.Take(postText, 200))
    ensures postText == "" ==> q.title == q.summary == Some(tab.title)
    ensures Get(q.data, "author") == Some(JStr(post.author)) && Get(q.data, "post_id") == Some(JStr(post.postId))
  {
    var summary := Strings.Take(postText, 200);
    Capture.IdeaRequest("tweet", Some(if postText != "" then Strings.Take(postText, 80) else tab.title), tab.url,
      Some(if summary != "" then summary else tab.title), PostData(tab, post, postText))
  }

  /** `{url, text, author, platform, post_id, page_title}` */
  function PostData(tab: Tab, post: Social.SocialPost, postText: string): (j: Json)
    requires post.Social?
    ensures Get(j, "author") == Some(JStr(post.author)) && Get(j, "post_id") == Some(JStr(post.postId))
  {
    var rest := [("text", JStr(postText)), ("author", JStr(post.author)), ("platform", JStr(post.platform)),
                 ("post_id", JStr(post.postId)), ("page_title", JStr(tab.title))];
    assert rest[1].0 == "author" && rest[3].0 == "post_id";
    LookupDistinct(rest);
    WithUrl(tab.url, rest)
  }

  /** The video `handleSavePage` creates: the page title without its YouTube
      suffix as title and summary. */
  function VideoRequest(tab: Tab, video: Social.Video): (q: Capture.IdeaRequest)
    requires video.Video?
    ensures q.kind == "video" && q.url == tab.url
    ensures q.title == q.summary == Some(Social.VideoTitle(tab.title))
    ensures Get(q.data, "platform") == Some(JStr(video.platform)) && Get(q.data, "video_id") == Some(JStr(video.videoId))
  {
    var title := Social.VideoTitle(tab.title);
    var rest := [("platform", JStr(video.platform)), ("video_id", JStr(video.videoId)), ("page_title", JStr(tab.title))];
    assert rest[0].0 == "platform" && rest[1].0 == "video_id";
    LookupDistinct(rest);
    Capture.IdeaRequest("video", Some(title), tab.url, Some(title), WithUrl(tab.url, rest))
  }

  /** The request `handleSavePage` sends: a video when the URL is one, otherwise a
      social post when the URL is one (with `postText`, what the page yielded),
      otherwise the page with its title. */
  function PageRequest(tab: Tab, postText: string): (q: Capture.IdeaRequest)
    ensures q.url == tab.url
    ensures q.kind == "video" <==> Social.DetectVideo(tab.url).Video?
    ensures q.kind == "tweet" <==> Social.DetectVideo(tab.url).NotVideo? && Social.DetectSocialPost(tab.url).Social?
    ensures q.kind == "page" <==> Social.DetectVideo(tab.url).NotVideo? && Social.DetectSocialPost(tab.url).NotSocial?
    ensures q.kind == "page" ==> q.title == q.summary == Some(tab.title)
  {
    var video := Social.DetectVideo(tab.url);
    if video.Video? then VideoRequest(tab, video)
    else
      var social := Social.DetectSocialPost(tab.url);
      if social.Social? then TweetRequest(tab, social, postText)
      else Capture.IdeaRequest("page", Some(tab.title), tab.url, Some(tab.title),
                               WithUrl(tab.url, [("title", JStr(tab.title))]))
  }

  /** A YouTube page titled `<b> - YouTube` is saved as the video `<b>`. */
  lemma YouTubePageTitle(tab: Tab, b: string, postText: string)
    requires Social.DetectVideo(tab.url).Video?
    requires b != "" && Strings.Trim(b) == b && tab.title == b + " - YouTube"
    ensures PageRequest(tab, postText).title == Some(b)
  {
    Social.VideoTitleStripsSuffix(b);
  }

  /** The idea `handleSaveImage` creates for an image URL; none for a missing or
      empty one. */
  function ImageRequest(info: ClickInfo, tab: Tab): (q: Option<Capture.IdeaRequest>)
    ensures q.None? <==> info.srcUrl.None? || info.srcUrl.value == ""
    ensures q.Some? ==>
      && q.value.kind == "image" && q.value.url == info.srcUrl
      && q.value.title == Some("Image from " + tab.title) && q.value.summary == Some(tab.title)
      && Get(q.value.data, "source_url") == Some(JStr(info.srcUrl.value))
  {
    if info.srcUrl.None? || info.srcUrl.value == "" then None
    else
      var img := info.srcUrl.value;
      Some(Capture.IdeaRequest("image", Some("Image from " + tab.title), Some(img), Some(tab.title),
        JObj([("source_url", JStr(img))] + Field("page_url", tab.url) + [("caption", JStr(tab.title))])))
  }

  /** The file name the image is uploaded under: the last path segment of its URL
      cut at the first `?`, or `image.jpg` when that is empty. */
  function UploadName(imgUrl: string): (name: string)
    ensures name != "" && '/' !in name && '?' !in name
    ensures var raw := Strings.Split(Strings.LastSegment(imgUrl, '/'), '?')[0];
      (raw == "" ==> name == "image.jpg") && (raw != "" ==> name == raw)
  {
    var raw := Strings.Split(Strings.LastSegment(imgUrl, '/'), '?')[0];
    Strings.SplitHead(Strings.LastSegment(imgUrl, '/'), '?');
    if raw == "" then "image.jpg" else raw
  }

  /** The text after the last `/` of `prefix/rest` is `rest` when `rest` has none. */
  lemma LastSegmentAfter(prefix: string, rest: string)
    requires '/' !in rest
    ensures Strings.LastSegment(prefix + "/" + rest, '/') == rest
  {
    var s := prefix + "/" + rest;
    var r := Strings.LastSegment(s, '/');
    assert s[|s| - |rest| - 1] == '/';
    assert forall j :: |s| - |rest| <= j < |s| ==> s[j] == rest[j - (|s| - |rest|)];
    assert |r| == |rest|;
    assert r == s[|s| - |r|..] == rest;
  }

  /** An image at `…/<name>?<query>` is uploaded as `<name>`. */
  lemma UploadNameOf(prefix: string, name: string, query: string)
    requires name != "" && '/' !in name && '?' !in name && '/' !in query
    ensures UploadName(prefix + "/" + name + "?" + query) == name
  {
    var rest := name + "?" + query;
    assert prefix + "/" + name + "?" + query == prefix + "/" + rest;
    LastSegmentAfter(prefix, rest);
    QueryCut(name, query);
  }

  /** Cutting `<name>?<query>` at its first `?` leaves `<name>`. */
  lemma QueryCut(name: string, query: string)
    requires '?' !in name
    ensures Strings.Split(name + "?" + query, '?')[0] == name
  {
    var s := name + "?" + query;
    assert s[|name|] == '?';
    assert forall j :: 0 <= j < |name| ==> s[j] == name[j];
    var i := Strings.FirstIndexOf(s, '?');
    assert i <= |name| by {
      assert s[|name|] in s[..i + 1];
    }
    Strings.SplitHead(s, '?');
    assert s[..|name|] == name;
  }

  /** `${value}` in a template: `undefined` for a missing field. */
  function Interpolated(v: Option<Json>): string {
    if v.Some? then ToText(v.value) else "undefined"
  }

  /** The upload `handleSaveImage` tries once the idea exists: only when the image
      was downloaded and the idea is an object or value whose `id` can be read; the
      file goes to the idea's media route under the image's file name. */
  function UploadRequest(c: Config, idea: Option<Json>, imgUrl: string, downloaded: bool): (q: Option<Request>)
    requires Configured(c)
    ensures q.Some? <==> downloaded && idea.Some? && idea.value != JNull
    ensures q.Some? ==>
      && q.value.verb == "POST" && q.value.payload == FileForm("file", UploadName(imgUrl))
      && q.value.url == JoinUrl(c.apiUrl.value, "/api/ideas/" + Interpolated(Get(idea.value, "id")) + "/media")
      && q.value.headers == [("Authorization", "Bearer " + c.apiKey.value)]
  {
    if !downloaded || idea.None? || idea.value == JNull then None
    else
      var path := "/api/ideas/" + Interpolated(Get(idea.value, "id")) + "/media";
      Some(Request("POST", JoinUrl(c.apiUrl.value, path), [("Authorization", "Bearer " + c.apiKey.value)],
                   FileForm("file", UploadName(imgUrl))))
  }

  /** The message V8 gives the `TypeError` of destructuring `null`. */
  function NullDestructure(key: string): string {
    "Cannot destructure property '" + key + "' of 'null' as it is null."
  }

  /** `const { key } = await call`: the call's error, a `TypeError` for `null`, or
      the field (`undefined` when absent). */
  function Destructure(r: Result<Json>, key: string): (d: Result<Option<Json>>)
    ensures r.Err? ==> d == Err(r.message)
    ensures r == Ok(JNull) ==> d.Err?
    ensures r.Ok? && r.value != JNull ==> d == Ok(Get(r.value, key))
  {
    match r
    case Err(m) => Err(m)
    case Ok(j) => if j == JNull then Err(NullDestructure(key)) else Ok(Get(j, key))
  }

  /** The create request one click sends, when it sends one. */
  function ClickRequest(info: ClickInfo, tab: Tab, postText: string): (q: Option<Capture.IdeaRequest>)
    ensures q.None? <==> info.menuItemId !in {SaveSelectionItem, SavePageItem, SaveImageItem}
                         || (info.menuItemId == SaveImageItem && ImageRequest(info, tab).None?)
  {
    if info.menuItemId == SaveSelectionItem then Some(SelectionRequest(info, tab))
    else if info.menuItemId == SavePageItem then Some(PageRequest(tab, postText))
    else if info.menuItemId == SaveImageItem then ImageRequest(info, tab)
    else None
  }

  /** The outcome of a click on a menu entry: what its handler returned, or the
      error it threw. Only the create request can fail it: the image upload that
      follows never does. */
  function Clicked(c: Config, info: ClickInfo, tab: Tab, postText: string, fetch: Request -> Reply): (r: Result<Option<Json>>)
    ensures ClickRequest(info, tab, postText).None? ==> r == Ok(None)
    ensures ClickRequest(info, tab, postText).Some? ==>
      r == Destructure(ApiPost(c, "/api/ideas", Some(Capture.RequestJson(ClickRequest(info, tab, postText).value)), fetch), "idea")
  {
    match ClickRequest(info, tab, postText)
    case None => Ok(None)
    case Some(q) => Destructure(ApiPost(c, "/api/ideas", Some(Capture.RequestJson(q)), fetch), "idea")
  }

  /** The badge shown on the tab after a click. */
  function Badge(r: Result<Option<Json>>): string {
    if r.Ok? then "✓" else "!"
  }

  /** A click on an entry the worker does not know, or on the image entry without
      an image URL, shows the success badge without touching the network; a save
      while the extension is not configured shows the failure badge. */
  lemma ClickBadges(c: Config, info: ClickInfo, tab: Tab, postText: string, fetch: Request -> Reply)
    ensures info.menuItemId !in {SaveSelectionItem, SavePageItem, SaveImageItem} ==>
      Badge(Clicked(c, info, tab, postText, fetch)) == "✓"
    ensures info.menuItemId == SaveImageItem && (info.srcUrl.None? || info.srcUrl.value == "") ==>
      Badge(Clicked(c, info, tab, postText, fetch)) == "✓"
    ensures !Configured(c) && info.menuItemId in {SaveSelectionItem, SavePageItem} ==>
      Clicked(c, info, tab, postText, fetch) == Err(NotConfigured)
  {
  }

  // ---------------------------------------------------------------- messages from the popup

  /** The answer to `SAVE_IDEA` or `CREATE_CONNECTION`: `{ok: true, <key>}` with
      the created object, or `{ok: false, error}` with the thrown message. */
  function Answer(r: Result<Json>, key: string): (a: Json)
    ensures Get(a, "ok") == Some(JBool(Destructure(r, key).Ok?))
    ensures Destructure(r, key).Err? ==> Get(a, "error") == Some(JStr(Destructure(r, key).message))
    ensures Destructure(r, key).Ok? && Destructure(r, key).value.Some? ==>
      Get(a, key) == Destructure(r, key).value || key == "ok"
  {
    match Destructure(r, key)
    case Err(m) =>
      var fields := [("ok", JBool(false)), ("error", JStr(m))];
      assert fields[0].0[0] != fields[1].0[0];
      LookupDistinct(fields);
      JObj(fields)
    case Ok(v) =>
      if v.Some? then
        assert key != "ok" ==> Lookup([("ok", JBool(true)), (key, v.value)], key) == Some(v.value);
        JObj([("ok", JBool(true)), (key, v.value)])
      else JObj([("ok", JBool(true))])
  }

  /** The answer to `GET_TAGS`: always `ok`, with the tags the Worker listed, or
      none when there is no configuration, no tags field or the call failed. */
  function TagsAnswer(r: Result<Json>): (a: Json)
    ensures Get(a, "ok") == Some(JBool(true))
    ensures r.Ok? && Get(r.value, "tags").Some? && Get(r.value, "tags").value != JNull ==>
      Get(a, "tags") == Get(r.value, "tags")
    ensures r.Err? || r == Ok(JNull) ==> Get(a, "tags") == Some(JArr([]))
  {
    var tags := match r
      case Err(_) => JArr([])
      case Ok(d) => OrElse(Get(d, "tags"), JArr([]));
    var fields := [("ok", JBool(true)), ("tags", tags)];
    assert fields[0].0[0] != fields[1].0[0];
    LookupDistinct(fields);
    JObj(fields)
  }

  /** The answer the worker sends to a message from the popup, by its `type`;
      none for any other type. */
  function HandleMessage(c: Config, message: Json, fetch: Request -> Reply): (a: Option<Json>)
    ensures a.None? <==> Get(message, "type") !in {Some(JStr("SAVE_IDEA")), Some(JStr("GET_TAGS")), Some(JStr("CREATE_CONNECTION"))}
    ensures Get(message, "type") == Some(JStr("SAVE_IDEA")) ==>
      a == Some(Answer(ApiPost(c, "/api/ideas", Get(message, "payload"), fetch), "idea"))
    ensures Get(message, "type") == Some(JStr("GET_TAGS")) ==> a == Some(TagsAnswer(ApiGet(c, "/api/tags", fetch)))
    ensures Get(message, "type") == Some(JStr("CREATE_CONNECTION")) ==>
      a == Some(Answer(ApiPost(c, "/api/connections", Get(message, "payload"), fetch), "connection"))
  {
    var t := Get(message, "type");
    if t == Some(JStr("SAVE_IDEA")) then Some(Answer(ApiPost(c, "/api/ideas", Get(message, "payload"), fetch), "idea"))
    else if t == Some(JStr("GET_TAGS")) then Some(TagsAnswer(ApiGet(c, "/api/tags", fetch)))
    else if t == Some(JStr("CREATE_CONNECTION")) then
      Some(Answer(ApiPost(c, "/api/connections", Get(message, "payload"), fetch), "connection"))
    else None
  }

  /** Without configuration the popup's saves are answered with the configuration
      error and its tag request with an empty list. */
  lemma UnconfiguredAnswers(c: Config, message: Json, fetch: Request -> Reply)
    requires !Configured(c)
    ensures Get(message, "type") in {Some(JStr("SAVE_IDEA")), Some(JStr("CREATE_CONNECTION"))} ==>
      Get(HandleMessage(c, message, fetch).value, "error") == Some(JStr(NotConfigured))
    ensures Get(message, "type") == Some(JStr("GET_TAGS")) ==>
      Get(HandleMessage(c, message, fetch).value, "tags") == Some(JArr([]))
  {
  }
}
