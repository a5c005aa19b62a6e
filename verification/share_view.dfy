/** The iOS share sheet: the type it picks for a shared URL, the types it offers,
    and what `save` posts for the shared item. Its tag field is
    `CaptureForm.TagPicker` and its request sequence is `CaptureForm.Save`. */
module ShareView {
  import opened Wrappers
  import Strings
  import ClientModels
  import CaptureForm
  import IdeasRoutes

  /** A shared URL: its absolute text and the host Foundation parses out of it
      (`nil` for URLs without one, such as `mailto:`). */
  datatype SharedUrl = SharedUrl(absolute: string, host: Option<string>)

  // ---------------------------------------------------------------- type for a URL

  /** The hosts `typeForURL` reads as posts, matched as substrings of the host. */
  predicate PostHostAsWritten(h: string) {
    Strings.Contains(h, "x.com") || Strings.Contains(h, "twitter.com") || Strings.Contains(h, "threads.net")
    || Strings.Contains(h, "threads.com") || Strings.Contains(h, "bsky.app")
  }

  /** The hosts `typeForURL` reads as videos, matched as substrings of the host. */
  predicate VideoHostAsWritten(h: string) {
    Strings.Contains(h, "youtube.com") || Strings.Contains(h, "youtu.be") || Strings.Contains(h, "tiktok.com")
    || Strings.Contains(h, "vimeo.com") || Strings.Contains(h, "twitch.tv")
  }

  /** `typeForURL` as written: no host gives `note`; the lower-cased host is then
      checked for the post sites first, the video sites next, by substring. */
  function TypeForUrlAsWritten(url: Option<SharedUrl>): (t: ClientModels.IdeaType)
    ensures url.None? || url.value.host.None? <==> t == ClientModels.Note
    ensures url.Some? && url.value.host.Some? ==>
      var h := Strings.Lower(url.value.host.value);
      t == (if PostHostAsWritten(h) then ClientModels.Tweet
            else if VideoHostAsWritten(h) then ClientModels.Video
            else ClientModels.Page)
  {
    if url.None? || url.value.host.None? then ClientModels.Note
    else
      var h := Strings.Lower(url.value.host.value);
      if PostHostAsWritten(h) then ClientModels.Tweet
      else if VideoHostAsWritten(h) then ClientModels.Video
      else ClientModels.Page
  }

  /** The substring test reads any host ending in `x.com` as a post site: a
      file shared from `box.com` is saved as a tweet. */
  lemma BoxAsWritten()
    ensures TypeForUrlAsWritten(Some(SharedUrl("https://box.com/", Some("box.com")))) == ClientModels.Tweet
  {
    var h := Strings.Lower("box.com");
    assert h == "box.com";
    assert h[2..7] == "x.com";
    Strings.ContainsAt(h, "x.com", 2);
  }

  /** The host is the site `d` itself or one of its subdomains. */
  predicate OnDomain(h: string, d: string) {
    h == d || Strings.EndsWith(h, "." + d)
  }

  predicate PostHost(h: string) {
    OnDomain(h, "x.com") || OnDomain(h, "twitter.com") || OnDomain(h, "threads.net")
    || OnDomain(h, "threads.com") || OnDomain(h, "bsky.app")
  }

  predicate VideoHost(h: string) {
    OnDomain(h, "youtube.com") || OnDomain(h, "youtu.be") || OnDomain(h, "tiktok.com")
    || OnDomain(h, "vimeo.com") || OnDomain(h, "twitch.tv")
  }

  /** `typeForURL` as evidently intended: the sites are matched as domains, so a
      host is a post or video site only when it is that site or a subdomain. */
  function TypeForUrl(url: Option<SharedUrl>): (t: ClientModels.IdeaType)
    ensures url.None? || url.value.host.None? <==> t == ClientModels.Note
    ensures url.Some? && url.value.host.Some? ==>
      var h := Strings.Lower(url.value.host.value);
      t == (if PostHost(h) then ClientModels.Tweet else if VideoHost(h) then ClientModels.Video else ClientModels.Page)
  {
    if url.None? || url.value.host.None? then ClientModels.Note
    else
      var h := Strings.Lower(url.value.host.value);
      if PostHost(h) then ClientModels.Tweet
      else if VideoHost(h) then ClientModels.Video
      else ClientModels.Page
  }

  /** A site's own host and every subdomain of it are on the site. */
  lemma SubdomainOnDomain(sub: string, d: string)
    ensures OnDomain(d, d) && OnDomain(sub + "." + d, d)
  {
    var h := sub + "." + d;
    assert h[|h| - |"." + d|..] == "." + d;
  }

  /** A host on a site contains the site's name, so the intended test only
      narrows the written one. */
  lemma OnDomainContains(h: string, d: string)
    requires OnDomain(h, d)
    ensures Strings.Contains(h, d)
  {
    if h == d {
      Strings.ContainsAt(h, d, 0);
    } else {
      assert h[|h| - |d|..] == ("." + d)[1..];
      Strings.ContainsAt(h, d, |h| - |d|);
    }
  }

  /** Every post the intended test finds the written one finds as well, every
      video it finds the written one takes for a video or a post, and both give
      `note` for the same URLs. */
  lemma IntendedNarrowsWritten(url: Option<SharedUrl>)
    ensures TypeForUrl(url) == ClientModels.Tweet ==> TypeForUrlAsWritten(url) == ClientModels.Tweet
    ensures TypeForUrl(url) == ClientModels.Video ==> TypeForUrlAsWritten(url) in {ClientModels.Tweet, ClientModels.Video}
    ensures TypeForUrl(url) == ClientModels.Note <==> TypeForUrlAsWritten(url) == ClientModels.Note
  {
    if url.Some? && url.value.host.Some? {
      var h := Strings.Lower(url.value.host.value);
      if PostHost(h) {
        if OnDomain(h, "x.com") { OnDomainContains(h, "x.com"); }
        else if OnDomain(h, "twitter.com") { OnDomainContains(h, "twitter.com"); }
        else if OnDomain(h, "threads.net") { OnDomainContains(h, "threads.net"); }
        else if OnDomain(h, "threads.com") { OnDomainContains(h, "threads.com"); }
        else { OnDomainContains(h, "bsky.app"); }
      } else if VideoHost(h) {
        if OnDomain(h, "youtube.com") { OnDomainContains(h, "youtube.com"); }
        else if OnDomain(h, "youtu.be") { OnDomainContains(h, "youtu.be"); }
        else if OnDomain(h, "tiktok.com") { OnDomainContains(h, "tiktok.com"); }
        else if OnDomain(h, "vimeo.com") { OnDomainContains(h, "vimeo.com"); }
        else { OnDomainContains(h, "twitch.tv"); }
      }
    }
  }

  /** The intended test reads `box.com` as a page: it is no post site's
      subdomain, and shorter than every video site's name. */
  lemma BoxIntended()
    ensures TypeForUrl(Some(SharedUrl("https://box.com/", Some("box.com")))) == ClientModels.Page
  {
    var h := Strings.Lower("box.com");
    assert h == "box.com";
    assert h[1] != '.';
  }

  /** The intended test reads a subdomain of a post site, `mobile.x.com`, as a
      post site. */
  lemma SubdomainIntended()
    ensures TypeForUrl(Some(SharedUrl("https://mobile.x.com/", Some("mobile.x.com")))) == ClientModels.Tweet
  {
    var m := Strings.Lower("mobile.x.com");
    assert m == "mobile" + "." + "x.com";
    SubdomainOnDomain("mobile", "x.com");
  }

  // ---------------------------------------------------------------- types offered

  /** `availableTypes`: the chips offered, with `meta` always last. */
  function AvailableTypes(hasUrl: bool): (r: seq<ClientModels.IdeaType>)
    ensures |r| > 1 && r[|r| - 1] == ClientModels.Meta && ClientModels.Meta !in r[..|r| - 1]
    ensures r[0] == if hasUrl then ClientModels.Page else ClientModels.Note
    ensures ClientModels.Note in r && ClientModels.Quote in r
  {
    (if hasUrl then [ClientModels.Page, ClientModels.Tweet, ClientModels.Video, ClientModels.Quote, ClientModels.Note]
     else [ClientModels.Note, ClientModels.Quote, ClientModels.Text])
    + [ClientModels.Meta]
  }

  /** The type picked for a URL is always one of the chips offered for it. */
  lemma PickedTypeOffered(url: Option<SharedUrl>)
    ensures TypeForUrl(url) in AvailableTypes(url.Some?)
    ensures TypeForUrlAsWritten(url) in AvailableTypes(url.Some?)
  {
  }

  // ---------------------------------------------------------------- saving

  /** The data of a meta idea: this repository as the project, the priority and
      status picked, no commit yet and no implementation details. */
  function MetaData(priority: string, status: string): (d: seq<(string, Option<string>)>)
    ensures CaptureForm.ProjectOf(d) == Some("https://github.com/phareim/sfl")
    ensures ("priority", Some(priority)) in d && ("status", Some(status)) in d
    ensures forall i, j :: 0 <= i < j < |d| ==> d[i].0 != d[j].0
  {
    [("project", Some("https://github.com/phareim/sfl")), ("priority", Some(priority)), ("status", Some(status)),
     ("git_commit", None), ("implementation_details", Some(""))]
  }

  /** The body `save` posts for the shared item. */
  function ShareBody(selected: ClientModels.IdeaType, title: string, url: Option<SharedUrl>, text: Option<string>,
                     priority: string, status: string): (b: CaptureForm.CreateBody)
    ensures b.kind == ClientModels.RawValue(selected)
    ensures b.url == (if url.Some? then Some(url.value.absolute) else None)
    ensures b.title.Some? ==> b.title.value != ""
    ensures b.summary.Some? ==> selected == ClientModels.Note && b.summary == text
    ensures b.data.Some? <==> selected == ClientModels.Meta
  {
    var urlString := if url.Some? then Some(url.value.absolute) else None;
    CaptureForm.CreateBody(ClientModels.RawValue(selected), CaptureForm.FallbackTitle(title, urlString, text), urlString,
                           if selected == ClientModels.Note then text else None,
                           if selected == ClientModels.Meta then Some(MetaData(priority, status)) else None)
  }

  /** What the Worker stores for a share: the type picked; the title, else the
      URL, else the text, none when that is empty; the URL, or for a meta idea
      shared without one this repository's; and the text as summary only for a
      note. */
  lemma SharedRow(selected: ClientModels.IdeaType, title: string, url: Option<SharedUrl>, text: Option<string>,
                  priority: string, status: string, id: string, now: int)
    ensures var body := ShareBody(selected, title, url, text, priority, status);
      var r := IdeasRoutes.RowFor(CaptureForm.BodyJson(body), id, now);
      && r.Ok? && r.value.kind == Some(ClientModels.RawValue(selected))
      && r.value.title == CaptureForm.FallbackTitle(title, if url.Some? then Some(url.value.absolute) else None, text)
      && (r.value.title.Some? ==> r.value.title.value != "")
      && r.value.url == (if url.Some? then Some(url.value.absolute)
                         else if selected == ClientModels.Meta then Some("https://github.com/phareim/sfl")
                         else None)
      && r.value.summary == (if selected == ClientModels.Note then text else None)
  {
    var body := ShareBody(selected, title, url, text, priority, status);
    CaptureForm.StoredAsSent(body, id, now);
  }

  /** The share sheet's own state; the tags are in a `CaptureForm.TagPicker`. */
  class ShareSheet {
    var title: string
    var selectedType: ClientModels.IdeaType
    var metaPriority: string
    var metaStatus: string
    var isSaving: bool
    var error: Option<string>
    var didSave: bool

    constructor ()
      ensures title == "" && selectedType == ClientModels.Page && metaPriority == "B" && metaStatus == "draft"
      ensures !isSaving && error.None? && !didSave
    {
      title := "";
      selectedType := ClientModels.Page;
      metaPriority := "B";
      metaStatus := "draft";
      isSaving := false;
      error := None;
      didSave := false;
    }

    /** `onAppear`: take the suggested title and the type for the URL. */
    method Appear(suggested: string, url: Option<SharedUrl>)
      modifies this
      ensures title == suggested && selectedType == TypeForUrl(url)
      ensures metaPriority == old(metaPriority) && metaStatus == old(metaStatus)
      ensures isSaving == old(isSaving) && error == old(error) && didSave == old(didSave)
    {
      title := suggested;
      selectedType := TypeForUrl(url);
    }

    /** `onChange(of: context.url)`: pick the type again. */
    method UrlChanged(url: Option<SharedUrl>)
      modifies this
      ensures selectedType == TypeForUrl(url) && title == old(title)
      ensures metaPriority == old(metaPriority) && metaStatus == old(metaStatus)
      ensures isSaving == old(isSaving) && error == old(error) && didSave == old(didSave)
    {
      selectedType := TypeForUrl(url);
    }

    /** `onChange(of: context.suggestedTitle)`: a late suggestion fills only an
        empty title, so what the user typed is kept. */
    method SuggestionArrived(suggested: string)
      modifies this
      ensures title == if old(title) == "" then suggested else old(title)
      ensures selectedType == old(selectedType) && metaPriority == old(metaPriority) && metaStatus == old(metaStatus)
      ensures isSaving == old(isSaving) && error == old(error) && didSave == old(didSave)
    {
      if title == "" {
        title := suggested;
      }
    }

    /** `save`, reachable while the save button is enabled: post the item, then
        the tags; on success the sheet shows it saved (and stays busy until it
        closes), on failure it shows the error and can be saved again. */
    method Save(url: Option<SharedUrl>, text: Option<string>, tags: seq<CaptureForm.TagItem>, answer: CaptureForm.Answers)
      returns (o: CaptureForm.Outcome)
      requires !isSaving && !didSave
      modifies this
      ensures o == CaptureForm.Saved(ShareBody(selectedType, title, url, text, metaPriority, metaStatus), tags, answer)
      ensures o.failure.None? ==> isSaving && didSave && error.None?
      ensures o.failure.Some? ==> !isSaving && !didSave && error == o.failure
      ensures title == old(title) && selectedType == old(selectedType)
      ensures metaPriority == old(metaPriority) && metaStatus == old(metaStatus)
    {
      isSaving := true;
      error := None;
      var body := ShareBody(selectedType, title, url, text, metaPriority, metaStatus);
      o := CaptureForm.Save(body, tags, answer);
      if o.failure.None? {
        didSave := true;
      } else {
        error := o.failure;
        isSaving := false;
      }
    }
  }
}
