/** The iOS idea list: the view model that pages through the Worker's listing
    (or runs a search), and the quick-note sheet that saves a note with tags. */
module IdeasList {
  import opened Wrappers
  import Strings
  import ClientModels
  import CaptureForm
  import IdeasRoutes

  // ---------------------------------------------------------------- requests

  /** `listIdeas(cursor:type:query:)`: where the next page starts, the type
      filter and the search text; `nil` sends no filter. */
  datatype ListRequest = ListRequest(cursor: Option<int>, kind: Option<string>, query: Option<string>)

  /** The request `load` sends: the type `all` and the empty query mean no
      filter. */
  function RequestFor(cursor: Option<int>, kind: string, query: string): (r: ListRequest)
    ensures r.cursor == cursor
    ensures r.kind.None? <==> kind == "all"
    ensures r.kind.Some? ==> r.kind.value == kind
    ensures r.query.None? <==> query == ""
    ensures r.query.Some? ==> r.query.value == query
  {
    ListRequest(cursor, if kind == "all" then None else Some(kind), if query == "" then None else Some(query))
  }

  /** What the app gets back for a request: a page of the listing (or of the
      search), or the error the request threw. */
  type Fetch = ListRequest -> Result<ClientModels.IdeasPage>

  // ---------------------------------------------------------------- view model

  /** The view model's fields. */
  datatype ListState = ListState(ideas: seq<ClientModels.Idea>, isLoading: bool, error: Option<string>, hasMore: bool,
                                 cursor: Option<int>, currentType: string, currentQuery: string)

  /** `hasMore` after a page: there is a next page only when the page came with
      a cursor and no search is running. */
  predicate MoreAfter(cursor: Option<int>, query: string) {
    cursor.Some? && query == ""
  }

  /** The state `reset` starts from: no ideas, no cursor, more to load. */
  function Start(s: ListState, reset: bool): (t: ListState)
    ensures reset ==> t.ideas == [] && t.cursor.None? && t.hasMore
    ensures !reset ==> t == s
  {
    if reset then s.(cursor := None, hasMore := true, ideas := []) else s
  }

  /** `load(type:query:reset:)` run to its end: after the optional reset, stop
      if there is nothing more; else mark the list loading, fetch from the
      stored cursor, and append the page or record the error. A task cancelled
      while waiting stops there, still marked loading. */
  function Loaded(s: ListState, kind: string, query: string, reset: bool, fetch: Fetch, cancelled: bool): ListState {
    var s1 := Start(s, reset);
    if !s1.hasMore then s1
    else
      var s2 := s1.(isLoading := true, error := None, currentType := kind, currentQuery := query);
      if cancelled then s2
      else
        match fetch(RequestFor(s2.cursor, kind, query))
        case Ok(page) =>
          s2.(ideas := s2.ideas + page.ideas, cursor := page.cursor, hasMore := MoreAfter(page.cursor, query),
              isLoading := false)
        case Err(m) => s2.(error := Some(m), isLoading := false)
  }

  /** A load without reset only ever adds ideas after those already listed; a
      reset load lists nothing but the page it fetched. */
  lemma LoadKeepsListed(s: ListState, kind: string, query: string, reset: bool, fetch: Fetch, cancelled: bool)
    ensures var t := Loaded(s, kind, query, reset, fetch, cancelled);
      && (!reset ==> s.ideas <= t.ideas)
      && (reset ==> t.ideas == [] || (exists req :: fetch(req).Ok? && t.ideas == fetch(req).value.ideas))
  {
    var t := Loaded(s, kind, query, reset, fetch, cancelled);
    var req := RequestFor(None, kind, query);
    if reset && !cancelled && fetch(req).Ok? {
      assert t.ideas == [] + fetch(req).value.ideas;
      assert [] + fetch(req).value.ideas == fetch(req).value.ideas;
    }
  }

  /** Once the list has no more, a load without reset changes nothing and sends
      nothing. */
  lemma ExhaustedIsIdle(s: ListState, kind: string, query: string, fetch: Fetch, cancelled: bool)
    requires !s.hasMore
    ensures Loaded(s, kind, query, false, fetch, cancelled) == s
  {
  }

  /** A load that goes through asks for the page after the stored cursor (the
      first page after a reset) and appends it; the next cursor is the page's,
      and there is more exactly when that cursor is set and no search runs. */
  lemma LoadSucceeds(s: ListState, kind: string, query: string, reset: bool, fetch: Fetch)
    requires reset || s.hasMore
    requires fetch(RequestFor(Start(s, reset).cursor, kind, query)).Ok?
    ensures var page := fetch(RequestFor(Start(s, reset).cursor, kind, query)).value;
      var t := Loaded(s, kind, query, reset, fetch, false);
      && t.ideas == Start(s, reset).ideas + page.ideas && t.cursor == page.cursor
      && (t.hasMore <==> page.cursor.Some? && query == "")
      && t.error.None? && !t.isLoading && t.currentType == kind && t.currentQuery == query
  {
  }

  /** A load that throws keeps the ideas and the cursor it started from, shows
      the error, and leaves more to load. */
  lemma LoadFails(s: ListState, kind: string, query: string, reset: bool, fetch: Fetch)
    requires reset || s.hasMore
    requires fetch(RequestFor(Start(s, reset).cursor, kind, query)).Err?
    ensures var t := Loaded(s, kind, query, reset, fetch, false);
      && t.ideas == Start(s, reset).ideas && t.cursor == Start(s, reset).cursor
      && t.error == Some(fetch(RequestFor(Start(s, reset).cursor, kind, query)).message)
      && t.hasMore && !t.isLoading
  {
  }

  /** `loadMore`: load the next page, unless a load is running, nothing more is
      left or a search is showing. */
  function MoreLoaded(s: ListState, fetch: Fetch, cancelled: bool): (t: ListState)
    ensures s.isLoading || !s.hasMore || s.currentQuery != "" ==> t == s
    ensures s.ideas <= t.ideas
  {
    if !s.isLoading && s.hasMore && s.currentQuery == "" then
      LoadKeepsListed(s, s.currentType, s.currentQuery, false, fetch, cancelled);
      Loaded(s, s.currentType, s.currentQuery, false, fetch, cancelled)
    else s
  }

  /** `refresh`: the same type and query again, from the first page. */
  function Refreshed(s: ListState, fetch: Fetch, cancelled: bool): ListState {
    Loaded(s, s.currentType, s.currentQuery, true, fetch, cancelled)
  }

  /** A refresh that goes through shows exactly the first page, fetched
      without a cursor. */
  lemma RefreshShowsFirstPage(s: ListState, fetch: Fetch)
    requires fetch(RequestFor(None, s.currentType, s.currentQuery)).Ok?
    ensures Refreshed(s, fetch, false).ideas == fetch(RequestFor(None, s.currentType, s.currentQuery)).value.ideas
  {
    LoadSucceeds(s, s.currentType, s.currentQuery, true, fetch);
    assert [] + fetch(RequestFor(None, s.currentType, s.currentQuery)).value.ideas
        == fetch(RequestFor(None, s.currentType, s.currentQuery)).value.ideas;
  }

  /** A page that comes back without a cursor ends the list: after it
      `loadMore` does nothing, whatever the Worker would answer. */
  lemma NoCursorNoMore(s: ListState, kind: string, query: string, reset: bool, fetch: Fetch, later: Fetch, cancelled: bool)
    requires reset || s.hasMore
    requires fetch(RequestFor(Start(s, reset).cursor, kind, query)).Ok?
    requires fetch(RequestFor(Start(s, reset).cursor, kind, query)).value.cursor.None?
    ensures var t := Loaded(s, kind, query, reset, fetch, false);
      !t.hasMore && MoreLoaded(t, later, cancelled) == t
  {
  }

  /** A search shows one page only: after it `loadMore` does nothing, even when
      the page came with a cursor. */
  lemma SearchIsOnePage(s: ListState, kind: string, query: string, reset: bool, fetch: Fetch, later: Fetch, cancelled: bool)
    requires query != "" && (reset || s.hasMore)
    requires fetch(RequestFor(Start(s, reset).cursor, kind, query)).Ok?
    ensures var t := Loaded(s, kind, query, reset, fetch, false);
      !t.hasMore && MoreLoaded(t, later, cancelled) == t
  {
  }

  /** A listing page that comes back with a cursor keeps the list going: the
      next `loadMore` asks for the page after that cursor, with the same type. */
  lemma CursorKeepsPaging(s: ListState, kind: string, reset: bool, fetch: Fetch, later: Fetch)
    requires reset || s.hasMore
    requires fetch(RequestFor(Start(s, reset).cursor, kind, "")).Ok?
    requires fetch(RequestFor(Start(s, reset).cursor, kind, "")).value.cursor.Some?
    ensures var t := Loaded(s, kind, "", reset, fetch, false);
      && t.hasMore && !t.isLoading
      && MoreLoaded(t, later, false) == Loaded(t, kind, "", false, later, false)
      && RequestFor(t.cursor, t.currentType, t.currentQuery)
         == ListRequest(fetch(RequestFor(Start(s, reset).cursor, kind, "")).value.cursor, if kind == "all" then None else Some(kind), None)
  {
  }

  /** `IdeasListViewModel`. */
  class IdeasListViewModel {
    var ideas: seq<ClientModels.Idea>
    var isLoading: bool
    var error: Option<string>
    var hasMore: bool
    var cursor: Option<int>
    var currentType: string
    var currentQuery: string

    function State(): ListState
      reads this
    {
      ListState(ideas, isLoading, error, hasMore, cursor, currentType, currentQuery)
    }

    constructor ()
      ensures State() == ListState([], false, None, true, None, "all", "")
    {
      ideas := [];
      isLoading := false;
      error := None;
      hasMore := true;
      cursor := None;
      currentType := "all";
      currentQuery := "";
    }

    /** `load(type:query:reset:)`. */
    method Load(kind: string, query: string, reset: bool, fetch: Fetch, cancelled: bool)
      modifies this
      ensures State() == Loaded(old(State()), kind, query, reset, fetch, cancelled)
    {
      if reset {
        cursor := None;
        hasMore := true;
        ideas := [];
      }
      if !hasMore {
        return;
      }
      isLoading := true;
      error := None;
      currentType := kind;
      currentQuery := query;
      if cancelled {
        return;
      }
      var result := fetch(RequestFor(cursor, kind, query));
      match result {
        case Ok(page) =>
          ideas := ideas + page.ideas;
          cursor := page.cursor;
          hasMore := page.cursor.Some? && query == "";
        case Err(m) =>
          error := Some(m);
      }
      isLoading := false;
    }

    /** `loadMore()`. */
    method LoadMore(fetch: Fetch, cancelled: bool)
      modifies this
      ensures State() == MoreLoaded(old(State()), fetch, cancelled)
    {
      if isLoading || !hasMore || currentQuery != "" {
        return;
      }
      Load(currentType, currentQuery, false, fetch, cancelled);
    }

    /** `refresh()`. */
    method Refresh(fetch: Fetch, cancelled: bool)
      modifies this
      ensures State() == Refreshed(old(State()), fetch, cancelled)
    {
      Load(currentType, currentQuery, true, fetch, cancelled);
    }
  }

  // ---------------------------------------------------------------- quick note

  /** The Save button is enabled when the note holds more than white space and
      line breaks. */
  predicate CanSave(noteText: string) {
    Strings.TrimWhitespaceAndNewlines(noteText) != ""
  }

  /** The body the quick note posts: a `note` whose summary is the trimmed note
      and whose title is the title as typed, `nil` when it is blank; nothing
      when the note is blank. */
  function NoteBody(title: string, noteText: string): (r: Option<CaptureForm.CreateBody>)
    ensures r.Some? <==> CanSave(noteText)
  {
    var trimmed := Strings.TrimWhitespaceAndNewlines(noteText);
    if trimmed == "" then None
    else Some(CaptureForm.CreateBody("note", if Strings.TrimWhitespaceAndNewlines(title) == "" then None else Some(title),
                                     None, Some(trimmed), None))
  }

  /** What the Worker stores for a quick note: a `note` without url whose
      summary is the note trimmed (never empty) and whose title is the title as
      typed, untrimmed, unless it is blank. */
  lemma NoteRow(title: string, noteText: string, id: string, now: int)
    requires CanSave(noteText)
    ensures var r := IdeasRoutes.RowFor(CaptureForm.BodyJson(NoteBody(title, noteText).value), id, now);
      && r.Ok? && r.value.kind == Some("note") && r.value.url.None?
      && r.value.summary == Some(Strings.TrimWhitespaceAndNewlines(noteText)) && r.value.summary.value != ""
      && (r.value.title.Some? <==> Strings.TrimWhitespaceAndNewlines(title) != "")
      && (r.value.title.Some? ==> r.value.title.value == title)
  {
    CaptureForm.StoredAsSent(NoteBody(title, noteText).value, id, now);
  }

  /** `QuickNoteSheet`'s state. */
  class QuickNoteSheet {
    var title: string
    var noteText: string
    var selectedTags: seq<CaptureForm.TagItem>
    var isSaving: bool
    var error: Option<string>

    constructor ()
      ensures title == "" && noteText == "" && selectedTags == [] && !isSaving && error.None?
    {
      title := "";
      noteText := "";
      selectedTags := [];
      isSaving := false;
      error := None;
    }

    /** `onAddExisting`: append the tag unless its id is picked. */
    method AddExisting(idea: ClientModels.Idea)
      requires CaptureForm.WellFormed(selectedTags)
      modifies this
      ensures CaptureForm.WellFormed(selectedTags)
      ensures selectedTags == CaptureForm.WithExisting(old(selectedTags), idea)
      ensures title == old(title) && noteText == old(noteText) && isSaving == old(isSaving) && error == old(error)
    {
      CaptureForm.WithExistingWellFormed(selectedTags, idea);
      if CaptureForm.HasId(selectedTags, idea.id) {
        return;
      }
      selectedTags := selectedTags + [CaptureForm.Existing(idea)];
    }

    /** `onAddNew`: append the name under a fresh UUID unless a picked tag has
        that name, ignoring case. */
    method AddNew(name: string, uuid: string)
      requires CaptureForm.WellFormed(selectedTags) && !CaptureForm.HasId(selectedTags, uuid)
      modifies this
      ensures CaptureForm.WellFormed(selectedTags)
      ensures selectedTags == CaptureForm.WithNamed(old(selectedTags), name, uuid)
      ensures title == old(title) && noteText == old(noteText) && isSaving == old(isSaving) && error == old(error)
    {
      CaptureForm.WithNamedWellFormed(selectedTags, name, uuid);
      if CaptureForm.HasName(selectedTags, name) {
        return;
      }
      selectedTags := selectedTags + [CaptureForm.Fresh(name, uuid)];
    }

    /** The remove button: drop every picked tag with that id. */
    method Remove(id: string)
      requires CaptureForm.WellFormed(selectedTags)
      modifies this
      ensures CaptureForm.WellFormed(selectedTags)
      ensures selectedTags == CaptureForm.Without(old(selectedTags), id)
      ensures title == old(title) && noteText == old(noteText) && isSaving == old(isSaving) && error == old(error)
    {
      CaptureForm.WithoutWellFormed(selectedTags, id);
      selectedTags := CaptureForm.Without(selectedTags, id);
    }

    /** `save` once the body is built: post it, then the tags. */
    method Post(body: CaptureForm.CreateBody, answer: CaptureForm.Answers) returns (o: CaptureForm.Outcome)
      requires !isSaving
      modifies this
      ensures o == CaptureForm.Saved(body, selectedTags, answer)
      ensures o.failure.None? ==> isSaving && error.None?
      ensures o.failure.Some? ==> !isSaving && error == o.failure
      ensures title == old(title) && noteText == old(noteText) && selectedTags == old(selectedTags)
    {
      isSaving := true;
      error := None;
      o := CaptureForm.Save(body, selectedTags, answer);
      if o.failure.Some? {
        error := o.failure;
        isSaving := false;
      }
    }

    /** `save`, reachable while no save is running: a blank note sends nothing;
        otherwise the note, then the tags. On success the sheet closes (still
        marked saving); on failure it shows the error and can be saved again. */
    method Save(answer: CaptureForm.Answers) returns (o: Option<CaptureForm.Outcome>)
      requires !isSaving
      modifies this
      ensures o.None? <==> NoteBody(title, noteText).None?
      ensures o.None? ==> !isSaving && error == old(error)
      ensures o.Some? ==> o.value == CaptureForm.Saved(NoteBody(title, noteText).value, selectedTags, answer)
      ensures o.Some? && o.value.failure.None? ==> isSaving && error.None?
      ensures o.Some? && o.value.failure.Some? ==> !isSaving && error == o.value.failure
      ensures title == old(title) && noteText == old(noteText) && selectedTags == old(selectedTags)
    {
      var body := NoteBody(title, noteText);
      if body.None? {
        return None;
      }
      var outcome := Post(body.value, answer);
      o := Some(outcome);
    }
  }
}
