/** `extractArticleText`: the paragraphs of an HTML page that lie outside
    navigation, header, footer, aside, script, style and noscript elements and
    hold at least eight words, kept when there are at least three of them and
    at least 500 characters in all.

    The HTML rewriter is modelled by the callbacks it makes: the start of an
    element matched by one of the two selectors, the end tag of such an element
    (which runs the end-tag handler registered last and not yet run), and the
    text chunks inside `p` elements. */
module Article {
  import opened Wrappers
  import opened Strings
  import opened Queries

  datatype Event = Open(tag: string) | Close | Text(chunk: string)

  /** The end-tag handler an element start registered. `NoHandler` stands for a `p`
      start inside a skipped element, whose handler returns before registering one
      (its end tag then runs nothing). */
  datatype Handler = NoHandler | SkipEnd | ParaEnd

  /** `skipDepth`, `currentPara`, `paragraphs`, and the pending end-tag handlers. */
  datatype Rewriter = Rewriter(skipDepth: int, current: Option<string>, paragraphs: seq<string>, handlers: seq<Handler>)

  const Start: Rewriter := Rewriter(0, None, [], [])

  const SkippedTags: set<string> := {"nav", "header", "footer", "aside", "script", "style", "noscript"}

  const MinWords: nat := 8
  const MinParagraphs: nat := 3
  const MinLength: nat := 500

  /** The paragraph test `currentPara.trim().split(/\s+/).length >= 8`. The split of
      an empty text has length 1, so the test is the word count. */
  predicate LongEnough(text: string) {
    WordCount(Trim(text)) >= MinWords
  }

  /** One callback. */
  function Step(st: Rewriter, e: Event): Rewriter {
    match e
    case Open(tag) =>
      if tag in SkippedTags then st.(skipDepth := st.skipDepth + 1, handlers := st.handlers + [SkipEnd])
      else if tag == "p" then
        if st.skipDepth > 0 then st.(handlers := st.handlers + [NoHandler])
        else st.(current := Some(""), handlers := st.handlers + [ParaEnd])
      else st
    case Close =>
      if |st.handlers| == 0 then st
      else
        var rest := st.handlers[..|st.handlers| - 1];
        (match st.handlers[|st.handlers| - 1]
         case NoHandler => st.(handlers := rest)
         case SkipEnd => st.(skipDepth := st.skipDepth - 1, handlers := rest)
         case ParaEnd =>
           var kept := if st.current.Some? && LongEnough(st.current.value)
                       then st.paragraphs + [Trim(st.current.value)] else st.paragraphs;
           st.(current := None, paragraphs := kept, handlers := rest))
    case Text(chunk) =>
      if st.current.Some? && st.skipDepth == 0 then st.(current := Some(st.current.value + chunk)) else st
  }

  /** The state after a sequence of callbacks. */
  function Run(events: seq<Event>): Rewriter {
    if |events| == 0 then Start else Step(Run(events[..|events| - 1]), events[|events| - 1])
  }

  /** The rewriter pass: fold the callbacks into the paragraph list. */
  method CollectParagraphs(events: seq<Event>) returns (paragraphs: seq<string>)
    ensures paragraphs == Run(events).paragraphs
  {
    var skipDepth := 0;
    var current: Option<string> := None;
    var handlers: seq<Handler> := [];
    paragraphs := [];
    for i := 0 to |events|
      invariant Rewriter(skipDepth, current, paragraphs, handlers) == Run(events[..i])
    {
      assert events[..i + 1][..i] == events[..i];
      match events[i]
      case Open(tag) =>
        if tag in SkippedTags {
          skipDepth := skipDepth + 1;
          handlers := handlers + [SkipEnd];
        } else if tag == "p" {
          if skipDepth > 0 {
            handlers := handlers + [NoHandler];
          } else {
            current := Some("");
            handlers := handlers + [ParaEnd];
          }
        }
      case Close =>
        if |handlers| > 0 {
          var h := handlers[|handlers| - 1];
          handlers := handlers[..|handlers| - 1];
          if h == SkipEnd {
            skipDepth := skipDepth - 1;
          } else if h == ParaEnd {
            if current.Some? && LongEnough(current.value) {
              paragraphs := paragraphs + [Trim(current.value)];
            }
            current := None;
          }
        }
      case Text(chunk) =>
        if current.Some? && skipDepth == 0 {
          current := Some(current.value + chunk);
        }
    }
    assert events[..|events|] == events;
  }

  /** The result of the pass: the paragraphs joined with a blank line, or `null`
      when fewer than three were kept or the text is shorter than 500 characters. */
  function ArticleText(paragraphs: seq<string>): (r: Option<string>)
    ensures r.Some? <==> |paragraphs| >= MinParagraphs && |Join(paragraphs, "\n\n")| >= MinLength
    ensures r.Some? ==> r.value == Join(paragraphs, "\n\n") && |r.value| >= MinLength
  {
    var joined := Join(paragraphs, "\n\n");
    if |paragraphs| < MinParagraphs || |joined| < MinLength then None else Some(joined)
  }

  /** A fetched page as `extractArticleText` sees it: a network failure, or a
      response with its `ok` flag, its content type and the callbacks its body
      produces. */
  datatype Fetched = NetworkError | Fetched(ok: bool, contentType: Option<string>, events: seq<Event>)

  /** `extractArticleText(url)` given what fetching the url produced. */
  method ExtractArticleText(page: Fetched) returns (r: Option<string>)
    ensures page.NetworkError? || !page.ok ==> r.None?
    ensures page.Fetched? && !Contains(page.contentType.GetOr(""), "text/html") ==> r.None?
    ensures page.Fetched? && page.ok && Contains(page.contentType.GetOr(""), "text/html") ==>
      r == ArticleText(Run(page.events).paragraphs)
  {
    if page.NetworkError? || !page.ok {
      return None;
    }
    if !Contains(page.contentType.GetOr(""), "text/html") {
      return None;
    }
    var paragraphs := CollectParagraphs(page.events);
    r := ArticleText(paragraphs);
  }

  // ---------------------------------------------------------------- what the pass keeps

  function SkipCount(hs: seq<Handler>): nat {
    Count(hs, (h: Handler) => h == SkipEnd)
  }

  /** A kept paragraph: trimmed, so it starts and ends with a non-space, and of at
      least eight words. */
  predicate Kept(p: string) {
    WordCount(p) >= MinWords && |p| > 0 && !IsSpace(p[0]) && !IsSpace(p[|p| - 1])
  }

  /** What every state the pass reaches satisfies: `skipDepth` counts the pending
      skipped elements, a paragraph is only being collected inside a `p`, and every
      kept paragraph is a trimmed text of at least eight words. */
  ghost predicate Invariant(st: Rewriter) {
    && st.skipDepth == SkipCount(st.handlers)
    && (st.current.Some? ==> ParaEnd in st.handlers)
    && forall p :: p in st.paragraphs ==> Kept(p)
  }

  lemma {:induction false} CountAppend(hs: seq<Handler>, h: Handler)
    ensures SkipCount(hs + [h]) == SkipCount(hs) + (if h == SkipEnd then 1 else 0)
    decreases |hs|
  {
    if |hs| > 0 {
      assert (hs + [h])[1..] == hs[1..] + [h];
      CountAppend(hs[1..], h);
    }
  }

  lemma StepInvariant(st: Rewriter, e: Event)
    requires Invariant(st)
    ensures Invariant(Step(st, e))
  {
    match e
    case Open(tag) => OpenInvariant(st, tag);
    case Close => CloseInvariant(st);
    case Text(chunk) =>
  }

  lemma OpenInvariant(st: Rewriter, tag: string)
    requires Invariant(st)
    ensures Invariant(Step(st, Open(tag)))
  {
    var h := if tag in SkippedTags then SkipEnd else if tag != "p" then NoHandler
             else if st.skipDepth > 0 then NoHandler else ParaEnd;
    CountAppend(st.handlers, h);
    if tag in SkippedTags || tag == "p" {
      assert Step(st, Open(tag)).handlers == st.handlers + [h];
      assert forall x :: x in st.handlers ==> x in st.handlers + [h];
    }
  }

  lemma CloseInvariant(st: Rewriter)
    requires Invariant(st)
    ensures Invariant(Step(st, Close))
  {
    if |st.handlers| > 0 {
      var rest := st.handlers[..|st.handlers| - 1];
      var h := st.handlers[|st.handlers| - 1];
      assert st.handlers == rest + [h];
      CountAppend(rest, h);
      var next := Step(st, Close);
      assert next.handlers == rest;
      if st.current.Some? && h != ParaEnd {
        assert ParaEnd in rest;
      }
      if h == ParaEnd && st.current.Some? && LongEnough(st.current.value) {
        KeptTrim(st.current.value);
      }
    }
  }

  /** The trimmed text of a long enough paragraph is a kept paragraph. */
  lemma KeptTrim(text: string)
    requires LongEnough(text)
    ensures Kept(Trim(text))
  {
    assert WordCount("") == 0;
  }

  lemma {:induction false} RunInvariant(events: seq<Event>)
    ensures Invariant(Run(events))
    decreases |events|
  {
    if |events| > 0 {
      RunInvariant(events[..|events| - 1]);
      StepInvariant(Run(events[..|events| - 1]), events[|events| - 1]);
    }
  }

  /** Every paragraph the pass keeps is trimmed and has at least eight words. */
  lemma KeptParagraphs(events: seq<Event>)
    ensures forall p :: p in Run(events).paragraphs ==> Kept(p)
  {
    RunInvariant(events);
  }

  /** Text is collected only while no skipped element is open: a chunk arriving
      inside a nav, header, footer, aside, script, style or noscript element leaves
      the state as it was. */
  lemma SkippedTextIgnored(events: seq<Event>, chunk: string)
    requires SkipEnd in Run(events).handlers
    ensures Step(Run(events), Text(chunk)) == Run(events)
  {
    RunInvariant(events);
    var hs := Run(events).handlers;
    var i :| 0 <= i < |hs| && hs[i] == SkipEnd;
    assert SkipCount(hs) > 0;
  }

  /** The page text, when there is one, is at least three kept paragraphs. */
  lemma ArticleOfKept(events: seq<Event>)
    ensures var r := ArticleText(Run(events).paragraphs);
      r.Some? ==> |Run(events).paragraphs| >= MinParagraphs && forall p :: p in Run(events).paragraphs ==> Kept(p)
  {
    KeptParagraphs(events);
  }
}
