/** The macOS capture panel: the title and type it suggests for what was grabbed
    from the front app, the types it offers, and what `save` posts. Its tag field
    is `CaptureForm.TagPicker` and its request sequence is `CaptureForm.Save`. */
module CaptureView {
  import opened Wrappers
  import opened Json
  import Strings
  import ClientModels
  import CaptureForm
  import IdeasRoutes

  /** `CaptureContext`: what was grabbed from the front app. */
  datatype CaptureContext = CaptureContext(selectedText: Option<string>, sourceApp: Option<string>,
                                           windowTitle: Option<string>, browserURL: Option<string>)

  // ---------------------------------------------------------------- suggested title

  /** Foundation's `CharacterSet.newlines`. */
  predicate IsNewline(c: char) {
    c == '\n' || c == '\U{000B}' || c == '\U{000C}' || c == '\r' || c == '\U{0085}' || c == '\U{2028}' || c == '\U{2029}'
  }

  /** `components(separatedBy: .newlines).first ?? ""`: the text up to its first
      line break. */
  function FirstLine(s: string): (r: string)
    ensures |r| <= |s| && r == s[..|r|]
    ensures forall i :: 0 <= i < |r| ==> !IsNewline(r[i])
    ensures |r| < |s| ==> IsNewline(s[|r|])
  {
    if |s| == 0 || IsNewline(s[0]) then ""
    else [s[0]] + FirstLine(s[1..])
  }

  /** `suggestedTitle`: in a browser the window title; otherwise the first line
      of the first 120 characters of the selected text; otherwise the window
      title; `""` when there is none. */
  function SuggestedTitle(ctx: CaptureContext): (r: string)
    ensures ctx.browserURL.Some? || ctx.selectedText.None? ==> r == ctx.windowTitle.GetOr("")
    ensures ctx.browserURL.None? && ctx.selectedText.Some? ==>
      var text := ctx.selectedText.value;
      && |r| <= 120 && |r| <= |text| && r == text[..|r|]
      && (forall i :: 0 <= i < |r| ==> !IsNewline(r[i]))
      && (|r| < |text| && |r| < 120 ==> IsNewline(text[|r|]))
  {
    if ctx.browserURL.Some? then ctx.windowTitle.GetOr("")
    else if ctx.selectedText.Some? then FirstLine(Strings.Take(ctx.selectedText.value, 120))
    else ctx.windowTitle.GetOr("")
  }

  // ---------------------------------------------------------------- type

  /** The sites `autoType` reads as posts, matched as substrings of the whole
      lower-cased URL (without `threads.com`, which the share sheet knows). */
  predicate PostUrl(l: string) {
    Strings.Contains(l, "x.com") || Strings.Contains(l, "twitter.com") || Strings.Contains(l, "threads.net")
    || Strings.Contains(l, "bsky.app")
  }

  /** The sites `autoType` reads as videos (without `twitch.tv`). */
  predicate VideoUrl(l: string) {
    Strings.Contains(l, "youtube.com") || Strings.Contains(l, "youtu.be") || Strings.Contains(l, "tiktok.com")
    || Strings.Contains(l, "vimeo.com")
  }

  /** `autoType`: from the browser URL when there is one (posts first, then
      videos, else a page); without one, a quote when text was selected, else a
      note. */
  function AutoType(ctx: CaptureContext): (t: ClientModels.IdeaType)
    ensures ctx.browserURL.None? ==> t == if ctx.selectedText.Some? then ClientModels.Quote else ClientModels.Note
    ensures ctx.browserURL.Some? ==>
      var l := Strings.Lower(ctx.browserURL.value);
      t == (if PostUrl(l) then ClientModels.Tweet else if VideoUrl(l) then ClientModels.Video else ClientModels.Page)
  {
    match ctx.browserURL
    case Some(url) =>
      var l := Strings.Lower(url);
      if PostUrl(l) then ClientModels.Tweet
      else if VideoUrl(l) then ClientModels.Video
      else ClientModels.Page
    case None => if ctx.selectedText.Some? then ClientModels.Quote else ClientModels.Note
  }

  /** `availableTypes`: five chips with a browser URL, four without. */
  function AvailableTypes(hasUrl: bool): (r: seq<ClientModels.IdeaType>)
    ensures |r| == if hasUrl then 5 else 4
    ensures forall i, j :: 0 <= i < j < |r| ==> r[i] != r[j]
    ensures ClientModels.Page in r && ClientModels.Note in r && ClientModels.Quote in r
    ensures ClientModels.Meta !in r && ClientModels.Tag !in r
  {
    if hasUrl then [ClientModels.Page, ClientModels.Tweet, ClientModels.Video, ClientModels.Quote, ClientModels.Note]
    else [ClientModels.Note, ClientModels.Quote, ClientModels.Text, ClientModels.Page]
  }

  /** The type suggested is always one of the chips offered. */
  lemma AutoTypeOffered(ctx: CaptureContext)
    ensures AutoType(ctx) in AvailableTypes(ctx.browserURL.Some?)
  {
  }

  /** The whole URL is searched, so a page whose address merely mentions a post
      site is taken for a post. */
  lemma MentionIsPost()
    ensures AutoType(CaptureContext(None, None, None, Some("a.org/x.com"))) == ClientModels.Tweet
  {
    var l := Strings.Lower("a.org/x.com");
    assert l == "a.org/x.com";
    assert l[6..11] == "x.com";
    Strings.ContainsAt(l, "x.com", 6);
  }

  // ---------------------------------------------------------------- saving

  /** `save`'s `data`: the selected text with its source app for a quote, the
      text alone for a note, none otherwise or without selected text. */
  function CaptureData(selected: ClientModels.IdeaType, ctx: CaptureContext): (d: Option<seq<(string, Option<string>)>>)
    ensures d.Some? <==> ctx.selectedText.Some? && selected in {ClientModels.Quote, ClientModels.Note}
  {
    if ctx.selectedText.Some? && selected == ClientModels.Quote then Some([("text", ctx.selectedText), ("source", ctx.sourceApp)])
    else if ctx.selectedText.Some? && selected == ClientModels.Note then Some([("text", ctx.selectedText)])
    else None
  }

  /** The body `save` posts. */
  function CaptureBody(selected: ClientModels.IdeaType, title: string, ctx: CaptureContext): (b: CaptureForm.CreateBody)
    ensures b.kind == ClientModels.RawValue(selected) && b.url == ctx.browserURL
    ensures b.title.Some? ==> b.title.value != ""
    ensures b.summary.Some? ==> selected == ClientModels.Quote && b.summary == ctx.selectedText
    ensures b.data.Some? <==> ctx.selectedText.Some? && selected in {ClientModels.Quote, ClientModels.Note}
  {
    CaptureForm.CreateBody(ClientModels.RawValue(selected), CaptureForm.FallbackTitle(title, ctx.browserURL, ctx.selectedText),
                           ctx.browserURL, if selected == ClientModels.Quote then ctx.selectedText else None,
                           CaptureData(selected, ctx))
  }

  /** What the Worker stores for a capture: the type; the title, else the URL,
      else the selected text, none when empty; the browser URL; and the
      selected text as summary only for a quote. The blob it writes holds the
      selected text under `text` for a quote or a note. */
  lemma CapturedRow(selected: ClientModels.IdeaType, title: string, ctx: CaptureContext, id: string, now: int)
    ensures var body := BodyJson(selected, title, ctx);
      var r := IdeasRoutes.RowFor(body, id, now);
      && r.Ok? && r.value.kind == Some(ClientModels.RawValue(selected))
      && r.value.title == CaptureForm.FallbackTitle(title, ctx.browserURL, ctx.selectedText)
      && r.value.url == ctx.browserURL
      && r.value.summary == (if selected == ClientModels.Quote then ctx.selectedText else None)
    ensures ctx.selectedText.Some? && selected in {ClientModels.Quote, ClientModels.Note} ==>
      var blob := OrElse(Get(BodyJson(selected, title, ctx), "data"), Empty);
      Get(blob, "text") == Some(JStr(ctx.selectedText.value))
  {
    var body := CaptureBody(selected, title, ctx);
    CaptureForm.StoredAsSent(body, id, now);
    CaptureForm.BodyJsonFields(body);
  }

  /** The JSON text of the capture body. */
  function BodyJson(selected: ClientModels.IdeaType, title: string, ctx: CaptureContext): Json {
    CaptureForm.BodyJson(CaptureBody(selected, title, ctx))
  }

  /** The capture panel's own state; the tags are in a `CaptureForm.TagPicker`. */
  class CapturePanel {
    var title: string
    var selectedType: ClientModels.IdeaType
    var isSaving: bool
    var error: Option<string>
    var didSave: bool

    constructor ()
      ensures title == "" && selectedType == ClientModels.Note && !isSaving && error.None? && !didSave
    {
      title := "";
      selectedType := ClientModels.Note;
      isSaving := false;
      error := None;
      didSave := false;
    }

    /** `onAppear`: take the suggested title and type. */
    method Appear(ctx: CaptureContext)
      modifies this
      ensures title == SuggestedTitle(ctx) && selectedType == AutoType(ctx)
      ensures isSaving == old(isSaving) && error == old(error) && didSave == old(didSave)
    {
      title := SuggestedTitle(ctx);
      selectedType := AutoType(ctx);
    }

    /** `save`, reachable while the save button is enabled: post the capture,
        then the tags; on success the panel shows it saved (and stays busy until
        it closes), on failure it shows the error and can be saved again. */
    method Save(ctx: CaptureContext, tags: seq<CaptureForm.TagItem>, answer: CaptureForm.Answers)
      returns (o: CaptureForm.Outcome)
      requires !isSaving && !didSave
      modifies this
      ensures o == CaptureForm.Saved(CaptureBody(selectedType, title, ctx), tags, answer)
      ensures o.failure.None? ==> isSaving && didSave && error.None?
      ensures o.failure.Some? ==> !isSaving && !didSave && error == o.failure
      ensures title == old(title) && selectedType == old(selectedType)
    {
      isSaving := true;
      error := None;
      o := CaptureForm.Save(CaptureBody(selectedType, title, ctx), tags, answer);
      if o.failure.None? {
        didSave := true;
      } else {
        error := o.failure;
        isSaving := false;
      }
    }
  }
}
