# sfl: a Dafny model of the idea graph

sfl ("save for later") keeps an idea graph. Ideas are pages, posts, videos,
quotes, notes, images, tags and meta ideas; connections are labelled edges
between them (`tagged_with` makes an idea carry a tag); notes and media hang off
an idea. A Cloudflare Worker serves the graph over HTTP. Its rows live in a D1
(SQLite) database and each idea's free-form content and uploaded files in an R2
bucket. The Worker also exposes the graph to language-model clients as an MCP
tool server behind an OAuth 2.0 authorization server, and it tags new ideas
automatically with a language model. Three clients capture ideas: a Chrome
extension (context menus, a popup and URL recognisers), an iOS app with a share
sheet, and a macOS capture panel.

This project models:

- **The store.** `Store.Database` is one object holding the seven tables (ideas,
  connections, notes, media, OAuth clients, codes and tokens). Each table is a
  sequence of rows in rowid order, and `Valid()` holds the key and uniqueness
  constraints the handlers rely on. `R2.Bucket` is the blob store, a map from
  object keys to objects.
- **The statements** of `api/src/db` (`IdeasDb`, `ConnectionsDb`, `NotesDb`).
  Row reads are functions of the tables; writes are methods whose `ensures`
  give the new tables.
- **The route handlers** (`IdeasRoutes`, `ConnectionsRoutes`, `NotesRoutes`,
  `MediaRoutes`, `TagsRoutes`, `GraphRoutes`, `OAuth`, `Mcp`, `McpTools`).
  Each handler is a method that answers an `Errors.Response`. The bearer gate
  in front of them is `Auth`.
- **The enrichment pass** (`Enrichment`) and the article extractor
  (`Article`). The extractor is a fold over the HTML rewriter's callbacks.
- **The Chrome extension**: the URL recognisers (`Social`), the requests of the
  service worker (`ServiceWorker`, `Capture`), and the popup's payload and tag
  toggle (`Popup`).
- **The Swift clients**:
  - the JSON decoding of ideas, connections and listing pages (`ClientModels`,
    `MacModels`, `IosModels`);
  - the tag picker and save sequence shared by the capture forms
    (`CaptureForm`);
  - the macOS capture panel (`CaptureView`) and the iOS share sheet
    (`ShareView`);
  - the iOS list view model and quick-note sheet (`IdeasList`).

The rest of the repository is not part of this model: the web front end, the
options page, content scripts, the GitHub proxy, the router and CORS set-up,
and the user interface of the apps.

Generated ids, the clock, the language model, SHA-256, `btoa`, the full-text
ranking and the network are parameters. An `IdGen` object hands out ids from a
given source. Time is an integer argument. Remote answers are functions from
request to reply, or from request number to outcome. A uniqueness violation
that the real database would raise is an error path of the insert, so no
operation needs fresh ids as a precondition.

Tables are sequences, not maps, because SQL leaves the order of ties and of
unordered queries open and a sequence fixes the rowid order. `ORDER BY` is a
stable insertion sort (`Queries.Sort`).

## Model

| member | source | states |
|---|---|---|
| Errors.NotFound | api/src/lib/errors.js:1-3 | a 404 reply whose `error` is the message, or `Not found` without one |
| Errors.BadRequest | api/src/lib/errors.js:5-7 | a 400 reply whose `error` is the message, or `Bad request` without one |
| Errors.Unauthorized | api/src/lib/errors.js:9-11 | a 401 reply whose `error` is `Unauthorized` |
| Errors.ServerError | api/src/lib/errors.js:13-15 | a 500 reply whose `error` is the message, or `Internal server error` without one |
| Auth.BearerToken | api/src/auth.js:8-9 | a token is read exactly when the header starts with `Bearer ` (case-sensitive), and the header is that prefix followed by the token; a missing header reads as empty |
| Auth.BearerAuth | api/src/auth.js:6-16 | the request passes if and only if the key is set, non-empty and the header is `Bearer ` plus that key; otherwise a 401 `Unauthorized` |
| R2.Read | api/src/lib/r2.js:18-22 | a missing key reads as `null`; a stored JSON object reads back as a document; only then is the read a document |
| R2.ReadAfterWrite | api/src/lib/r2.js:7-31 | after a write the key reads back what was written and every other key reads as before; after a delete the key reads as `null` and other keys are unaffected |
| R2.PutJson | api/src/lib/r2.js:7-11 | the bucket gains (or overwrites) the key with the JSON document, nothing else changes |
| R2.GetJson | api/src/lib/r2.js:18-22 | reads the bucket as `R2.Read` describes |
| R2.DeleteObject | api/src/lib/r2.js:29-31 | the key is gone from the bucket, nothing else changes |
| R2.PutBinary | api/src/lib/r2.js:40-44 | the bucket gains (or overwrites) the key with a binary object of that size and content type |
| R2.MediaKey | api/src/lib/r2.js:51-53 | the key lies under `ideas/<id>/media/` and ends with the file name |
| R2.DataKey | api/src/lib/r2.js:55-57 | the key lies under `ideas/<id>/` and ends with `/data.json` |
| R2.DataKeyInjective | api/src/lib/r2.js:55-57 | two ideas share a content-blob key only if they are the same idea |
| R2.DataKeyNotMediaKey | api/src/lib/r2.js:51-57 | with ids free of `/`, no content-blob key is ever a media key |
| R2.MediaKeyInjective | api/src/lib/r2.js:51-53 | with ids free of `/`, two media keys are equal exactly when idea and file name are |
| ConnectionsDb.NewConnectionRow | api/src/db/connections.js:5-13 | the row carries the given ids and time; a missing or `null` label is stored as NULL; a label D1 cannot bind is an error |
| ConnectionsDb.ConstraintError | api/src/db/connections.js:5-13 | a constraint violation raises an error mentioning `UNIQUE` |
| ConnectionsDb.InsertConnection | api/src/db/connections.js:5-13 | the row is appended exactly when it binds and collides with no stored row; otherwise the table is unchanged and the error says why; the other tables are untouched and the store invariant is kept |
| ConnectionsDb.FindConnection | api/src/db/connections.js:15-17 | a row found has the id and is in the table; nothing is found exactly when no row has the id |
| ConnectionsDb.GetConnection | api/src/db/connections.js:15-17 | looks the id up in the connections table |
| ConnectionsDb.FindStoredConnection | api/src/db/connections.js:15-17 | with unique ids, the lookup returns exactly the stored row |
| ConnectionsDb.FindInsertedConnection | api/src/db/connections.js:5-17 | a connection just inserted is what the lookup by its id returns |
| ConnectionsDb.DeleteConnection | api/src/db/connections.js:19-21 | the rows with the id go, the rest keep their order, other tables are untouched, and the id is no longer found |
| ConnectionsDb.AllConnections | api/src/db/connections.js:26-31 | every connection, a permutation of the table, sorted newest first |
| NotesDb.NewNoteRow | api/src/db/notes.js:5-13 | the note row holds the given fields; a string body is stored as that text; a body D1 cannot bind is an error |
| NotesDb.InsertNote | api/src/db/notes.js:5-13 | the note is appended exactly when it binds and its id is free; otherwise the table is unchanged; the other tables are untouched |
| NotesDb.FindNote | api/src/db/notes.js:15-17 | a note found has the id and is in the table; nothing is found exactly when no note has the id |
| NotesDb.GetNote | api/src/db/notes.js:15-17 | looks the id up in the notes table |
| NotesDb.FindStoredNote | api/src/db/notes.js:15-17 | with unique ids, the lookup returns exactly the stored note |
| NotesDb.SetNoteBody | api/src/db/notes.js:19-24 | same length, ids, ideas and creation times; notes with the id get the body and time; every other note is unchanged |
| NotesDb.FindUpdatedNote | api/src/db/notes.js:15-24 | after the update, the lookup returns the note with the new body and time |
| NotesDb.UpdateNote | api/src/db/notes.js:19-24 | succeeds exactly when the body binds, and then the table is `SetNoteBody` of the old one; otherwise unchanged |
| NotesDb.DeleteNote | api/src/db/notes.js:26-28 | the notes with the id go, the rest keep their order, other tables are untouched, and the id is no longer found |
| Store.Bind | api/src/db/ideas.js:14 | what D1 stores for a bound value: `null` is NULL, a string is itself, numbers and booleans become text, and undefined, arrays and objects make the statement fail |
| Store.BindErrorNotUnique | api/src/db/ideas.js:14 | a binding failure never reads as a constraint violation: its message has no `UNIQUE` |
| Store.OrNull | api/src/db/ideas.js:14 | `?? null` always leaves a value and keeps a present one |
| Store.BindId | api/src/db/ideas.js:22 | an id binds exactly when it is a non-NULL bindable value, and a string id binds as itself |
| Store.IdGen.Next | api/src/routes/ideas.js:49 | each id handed out is the next one of the id source, and the count of ids issued goes up by one |
| Queries.Limit | api/src/db/ideas.js:56 | SQL `LIMIT n`: a prefix of the rows, `n` of them (or all when fewer), and all of them for a negative `n` |
| IdeasDb.NewIdeaRow | api/src/db/ideas.js:8-15 | the row is built exactly when every column binds, and holds the id, blob key and times and the bound type, title, url and summary; a missing title, url or summary is stored as NULL |
| IdeasDb.InsertIdea | api/src/db/ideas.js:8-16 | the row is appended exactly when it binds and the id is free; otherwise the table is unchanged; the other tables are untouched and the store invariant is kept |
| IdeasDb.FindIdea | api/src/db/ideas.js:21-23 | a row found has the id and is in the table; nothing is found exactly when no row has the id |
| IdeasDb.GetIdea | api/src/db/ideas.js:21-23 | looks the id up in the ideas table |
| IdeasDb.GetIdeaByUrl | api/src/db/ideas.js:28-30 | a row found is stored with exactly that url; nothing is found exactly when no row has it |
| IdeasDb.FindAfterInsert | api/src/db/ideas.js:8-23 | a row just inserted is what its id finds, and lookups of other ids are unaffected |
| IdeasDb.FindAppend | api/src/db/ideas.js:8-23 | a lookup after an append finds the earlier row when there is one, else the appended row when its id matches |
| IdeasDb.EffectiveLimit | api/src/db/ideas.js:37 | a missing, zero or non-numeric limit is 20, one above 100 is 100, one in 1..100 is itself, and a negative one passes through unchanged |
| IdeasDb.BindClause | api/src/db/ideas.js:44-46 | a falsy filter adds no clause; a string filter binds as itself |
| IdeasDb.BindClauses | api/src/db/ideas.js:58-62 | the cursor clause is present exactly when a cursor was given, and compares with `Number(cursor)` |
| IdeasDb.JoinTargets | api/src/db/ideas.js:48-51 | one connection yields only the idea itself, and yields something exactly when it tags the idea with a matching tag |
| IdeasDb.JoinEdges | api/src/db/ideas.js:48-51 | one idea yields rows exactly when it is tagged with the tag (by id or title) |
| IdeasDb.TagJoin | api/src/db/ideas.js:47-51 | the join holds exactly the ideas tagged with the tag; an idea tagged twice over appears twice |
| IdeasDb.Where | api/src/db/ideas.js:64-72 | the rows kept are exactly those passing the type, url and cursor clauses |
| IdeasDb.Selection | api/src/db/ideas.js:42-81 | the selected rows are exactly the listed ones, newest first |
| IdeasDb.Paginate | api/src/db/ideas.js:86-92 | when no extra row came back the page is all rows without cursor; else the last row is dropped and the cursor is the new last row's time; `pop` on too few rows throws |
| IdeasDb.PaginateLimit | api/src/db/ideas.js:37-92 | a page is an ordered prefix of the selection; with a positive limit it holds `limit` rows (or all) and has a cursor exactly when more rows exist; the cursor is the last row's time; a negative limit fails exactly for -1 or at most one row |
| IdeasDb.ListIdeas | api/src/db/ideas.js:36-93 | `listIdeas` as a whole: the page is an ordered prefix of the rows the filters select, cut as `PaginateLimit` states; an unbindable filter is an error |
| IdeasDb.ListedBeforeCursor | api/src/db/ideas.js:44-64 | with a cursor, every listed idea was created before it |
| IdeasDb.SetIdeaFields | api/src/db/ideas.js:98-105 | same length, ids, types, blob keys and creation times; the row with the id gets the new title, url, summary and time; every other row is unchanged |
| IdeasDb.UpdateIdea | api/src/db/ideas.js:98-105 | succeeds exactly when the three values bind, and then the table is `SetIdeaFields` of the old one; otherwise unchanged |
| IdeasDb.WithoutEndpoint | api/src/db/ideas.js:107-112 | the cascade keeps exactly the connections that neither start nor end at the idea |
| IdeasDb.NotesWithout | api/src/db/ideas.js:107-112 | the cascade keeps exactly the notes of other ideas |
| IdeasDb.MediaWithout | api/src/db/ideas.js:107-112 | the cascade keeps exactly the media of other ideas |
| IdeasDb.CascadeKeepsKeys | api/src/db/ideas.js:107-112 | the cascading delete keeps every uniqueness constraint of the tables |
| IdeasDb.DeleteIdea | api/src/db/ideas.js:110-112 | the idea goes with its connections, notes and media; everything else stays and the id is no longer found |
| IdeasDb.SearchIdeas | api/src/db/ideas.js:118-131 | exactly the first `limit` ranked full-text matches (all of them when there are fewer, or for a negative limit), in rank order; an unbindable or malformed query is an error |
| IdeasDb.IdeaConnections | api/src/db/ideas.js:136-150 | exactly the connections from or to the idea whose both ends exist, each joined with the type and title of its two ends |
| IdeasDb.GetIdeaConnections | api/src/db/ideas.js:136-150 | the idea's connections in the store |
| IdeasDb.IdeaNotes | api/src/db/ideas.js:155-161 | the idea's notes, each as often as stored, and no others, oldest first |
| IdeasDb.GetIdeaNotes | api/src/db/ideas.js:155-161 | the idea's notes in the store |
| IdeasDb.IdeaMedia | api/src/db/ideas.js:166-172 | the idea's media rows, each as often as stored, and no others, oldest first |
| IdeasDb.GetIdeaMedia | api/src/db/ideas.js:166-172 | the idea's media in the store |
| IdeasRoutes.Param | api/src/routes/ideas.js:22-25 | a query parameter is absent exactly when not given, else it is its text |
| IdeasRoutes.Search | api/src/routes/ideas.js:21-28 | a missing or empty `q` is a 400 before any search; otherwise a 200 with a prefix of the ranked matches within the limit, or the exception of a malformed query |
| IdeasRoutes.PageJson | api/src/routes/ideas.js:34 | the reply body carries the page's ideas under `ideas` and the cursor, or `null`, under `nextCursor` |
| IdeasRoutes.TextClausesBind | api/src/routes/ideas.js:32-33 | filters taken from the query string always bind |
| IdeasRoutes.List | api/src/routes/ideas.js:31-35 | a 200 reply exactly when `listIdeas` returns a page, carrying that page; with a positive limit it always replies |
| IdeasRoutes.ResolvedUrl | api/src/routes/ideas.js:57 | an explicit non-null url wins; otherwise a meta idea takes its data's `project`, and any other type has no url |
| IdeasRoutes.Create | api/src/routes/ideas.js:38-73 | an unparsable body is a 400 `Invalid JSON`, a body without type a 400 `type is required`, both changing nothing; otherwise the blob is written at the new id's data key and the row is inserted, a 201 exactly when the insert succeeds, whose body is `{idea, data}`: the stored row and the data sent (`{}` when absent) |
| IdeasRoutes.RowFor | api/src/routes/ideas.js:45-69 | the row a create asks for has the new id, its data key, a type, both times at `now`, the body's text url, and NULL for a missing title or summary |
| IdeasRoutes.CreatedRow | api/src/routes/ideas.js:49-71 | the row a create stores is the one then read back, with its data key and both times at `now` |
| IdeasRoutes.Detail | api/src/routes/ideas.js:76-89 | an unknown id is a 404; otherwise a 200 with the row under `idea`, the blob or `{}` under `data`, and the idea's joined connections, notes and media under their keys; a blob that is not JSON throws |
| IdeasRoutes.DetailJson | api/src/routes/ideas.js:88 | the detail body holds the idea, its data, connections, notes and media under their keys |
| IdeasRoutes.Pick | api/src/routes/ideas.js:114-116 | a field present in the body, `null` included, replaces the stored value; an absent one stores the old value again |
| IdeasRoutes.Update | api/src/routes/ideas.js:92-123 | unknown id is a 404 and bad JSON a 400, both changing nothing; otherwise `data`, when present, replaces the blob; a picked title, url or summary that cannot bind throws and leaves the row; else the row gets them and time `now`, and the reply is a 200 with the updated row and the blob exactly when the blob reads |
| IdeasRoutes.UpdateKeepsRow | api/src/routes/ideas.js:113-120 | an update keeps the idea findable with the same type, data key and creation time, and the new fields |
| IdeasRoutes.FindUpdated | api/src/routes/ideas.js:113-120 | after the update, the lookup by id finds the old row with the new fields |
| IdeasRoutes.Merged | api/src/routes/ideas.js:136 | with article text, `text` is set and every other key keeps its value; without it, `article` is `false` and every other key keeps its value |
| IdeasRoutes.FetchContent | api/src/routes/ideas.js:126-139 | 404 for an unknown id, 400 for a non-page or a page without url, with the bucket unchanged; for a page with a url the request throws exactly when its blob cannot be read and otherwise answers 200; a 200 means the blob was replaced by itself merged with the article text (or `article: false`) and that merge is the reply |
| IdeasRoutes.MediaKeys | api/src/routes/ideas.js:198-201 | exactly the blob keys of the idea's media rows |
| IdeasRoutes.Delete | api/src/routes/ideas.js:192-212 | 404 for an unknown id, changing nothing; otherwise the idea's blob and every media blob go, the row goes with its cascade, and the reply names the id |
| Article.CollectParagraphs | api/src/routes/ideas.js:155-184 | the loop over the rewriter's callbacks collects the paragraphs the rewriter pass defines |
| Article.ArticleText | api/src/routes/ideas.js:186-188 | text exactly when at least three paragraphs were kept and their blank-line join has at least 500 characters, and then it is that join |
| Article.ExtractArticleText | api/src/routes/ideas.js:141-189 | a network failure, a non-ok status or a non-HTML content type gives `null`; otherwise the text of the paragraphs the pass kept |
| Article.CountAppend | api/src/routes/ideas.js:160-164 | registering one more end-tag handler raises the skip depth by one exactly for a skipped element |
| Article.StepInvariant | api/src/routes/ideas.js:160-181 | each rewriter callback keeps the pass's invariant (skip depth counts the open skipped elements, paragraphs are kept ones) |
| Article.OpenInvariant | api/src/routes/ideas.js:160-170 | an opening tag keeps the invariant |
| Article.CloseInvariant | api/src/routes/ideas.js:163-175 | an end tag keeps the invariant |
| Article.KeptTrim | api/src/routes/ideas.js:171-172 | a paragraph of at least eight words is pushed trimmed and stays long enough |
| Article.RunInvariant | api/src/routes/ideas.js:159-184 | the whole pass keeps the invariant |
| Article.KeptParagraphs | api/src/routes/ideas.js:171-172 | every paragraph kept is trimmed and has at least eight words |
| Article.SkippedTextIgnored | api/src/routes/ideas.js:168-178 | text arriving inside a nav, header, footer, aside, script, style or noscript element changes nothing |
| Article.ArticleOfKept | api/src/routes/ideas.js:171-188 | the article text, when there is one, is made of at least three kept paragraphs |
| ConnectionsRoutes.IdeaFor | api/src/routes/connections.js:22 | a request id that cannot bind throws; a bound id looks the idea up; `null` finds nothing |
| ConnectionsRoutes.Validate | api/src/routes/connections.js:11-24 | the checks in order: bad JSON is a 400, a `null` body throws, a falsy endpoint is a 400, an unknown `from_id` then `to_id` is a 404 naming it; passing means both ideas exist |
| ConnectionsRoutes.Create | api/src/routes/connections.js:10-40 | a refused request changes nothing; otherwise a 201 exactly when the new row binds and collides with no stored one, and the row is appended and returned as `{connection}`; a collision is a 400 `Connection already exists`; a binding error is rethrown |
| ConnectionsRoutes.Delete | api/src/routes/connections.js:43-50 | an unknown id is a 404 changing nothing; otherwise the connection goes and the reply names the id; afterwards the id is not found |
| NotesRoutes.NoteBody | api/src/routes/notes.js:22-23 | the note text is usable exactly when the `body` field is present and truthy |
| NotesRoutes.RefuseBody | api/src/routes/notes.js:15-23 | bad JSON is a 400, a `null` body throws, and a missing or falsy `body` is a 400 `body is required`; any other body is accepted |
| NotesRoutes.Create | api/src/routes/notes.js:10-31 | an unknown idea is a 404 and a refused body its refusal; otherwise a 201 exactly when the note row binds and its id is free, and the note is appended with both times at `now` and returned as `{note}`; nothing else changes |
| NotesRoutes.Update | api/src/routes/notes.js:36-54 | an unknown note is a 404 and a refused body its refusal; otherwise a 200 exactly when the text binds, the note gets the text and time, and the reply is the updated note |
| NotesRoutes.Delete | api/src/routes/notes.js:56-63 | an unknown note is a 404 changing nothing; otherwise the note goes and the reply names the id |
| TagsRoutes.Usage | api/src/routes/tags.js:12-16 | the usage count is at most the number of connections, and zero exactly when no `tagged_with` connection points at the tag |
| TagsRoutes.TagOrderStrict | api/src/routes/tags.js:17 | the order by usage descending, then title ascending, is a strict order |
| TagsRoutes.Grouped | api/src/routes/tags.js:12-16 | one row per tag idea with its usage count, and nothing else |
| TagsRoutes.GroupedOnce | api/src/routes/tags.js:16 | grouping by id over unique ids gives each tag one row |
| TagsRoutes.Tags | api/src/routes/tags.js:10-19 | the tag rows, a permutation of the grouped rows, ordered by usage then title |
| TagsRoutes.TagsOnce | api/src/routes/tags.js:10-19 | each tag appears exactly once in the listing |
| TagsRoutes.List | api/src/routes/tags.js:9-22 | a 200 whose `tags` are the ordered tag rows |
| GraphRoutes.Nodes | api/src/routes/graph.js:14 | every idea, a permutation of the table, newest first |
| GraphRoutes.Graph | api/src/routes/graph.js:12-19 | a 200 with every idea as a node and every connection as an edge, each newest first |
| GraphRoutes.NeighborIds | api/src/routes/graph.js:33-37 | an id is a neighbour exactly when it is an end of one of the connections and is not the idea itself |
| GraphRoutes.CollectNeighborIds | api/src/routes/graph.js:33-37 | the loop builds exactly that neighbour set |
| GraphRoutes.NeighborRows | api/src/routes/graph.js:39-47 | no query and no rows without ids; otherwise exactly the ideas whose id is in the set |
| GraphRoutes.Neighbors | api/src/routes/graph.js:25-50 | an unknown idea is a 404; otherwise the idea, its connections and the ideas at their other ends |
| GraphRoutes.NeighborIsConnected | api/src/routes/graph.js:30-47 | every neighbour is another stored idea joined to this one by a connection in one direction or the other |
| MediaRoutes.InsertMedia | api/src/routes/media.js:29-35 | the row is appended exactly when its id is free; otherwise the table is unchanged; the other tables are untouched |
| MediaRoutes.FindMedia | api/src/routes/media.js:37 | a row found has the id and is in the table; nothing is found exactly when no row has the id |
| MediaRoutes.FindStoredMedia | api/src/routes/media.js:37 | with unique ids, the lookup returns exactly the stored row, a row just inserted included |
| MediaRoutes.DeleteMediaRow | api/src/routes/media.js:128 | the rows with the id go, the rest stay, and the id is no longer found |
| MediaRoutes.UploadKey | api/src/routes/media.js:22-24 | the key is the media key of `<id>_<name>` and ends with the original name |
| MediaRoutes.Upload | api/src/routes/media.js:13-39 | an unknown idea is a 404 and a missing or text `file` a 400, changing nothing; otherwise the bytes go to the upload key, and a 201 exactly when the row (original name, type, length, time) is appended, and that row is the reply's `media` |
| MediaRoutes.FetchedFilename | api/src/routes/media.js:73-75 | the name has no `/` or `?` and has a `.`; it is the last path segment cut at `?`, `image.jpg` when empty, and gets `.jpg` when it has no dot |
| MediaRoutes.FetchImage | api/src/routes/media.js:46-92 | 404, bad JSON, missing url, a failed fetch and a non-2xx status each give their reply and change nothing; a `null` body throws; after a 2xx download the reply is a 201 exactly when the new media id is free, and otherwise the request throws leaving the rows; a 201 means the bytes were stored under the derived name with the remote type (or `application/octet-stream`), the row was appended, and the row is the reply |
| MediaRoutes.FetchedKeyNotDataKey | api/src/routes/media.js:73-78 | with ids free of `/`, a fetched image's key is never a content-blob key |
| MediaRoutes.ObjectUrl | api/src/routes/media.js:102-117 | an unknown row is a 404, a missing object a 404; a 200 exactly when both exist, streaming the object with the row's type, an inline disposition naming its file and `Cache-Control: private, max-age=3600` |
| MediaRoutes.Delete | api/src/routes/media.js:122-131 | an unknown row is a 404 changing nothing; otherwise the object and the row go and the reply names the id |
| Enrichment.FieldLine | api/src/enrichment.js:76-78 | at most one line, present exactly when the field is set and non-empty, and then the prefix followed by the value |
| Enrichment.FieldLines | api/src/enrichment.js:76-78 | a `Title:`, `Summary:` or `URL:` line appears exactly when that field is set and non-empty; at most three lines, none empty |
| Enrichment.EntryLines | api/src/enrichment.js:80-86 | a `k: v` line for every string or number entry other than `text`, `null` and `""`, and no other lines |
| Enrichment.Description | api/src/enrichment.js:74-89 | the lines joined by line breaks, or `(no description)` when there are none |
| Enrichment.JoinEmpty | api/src/enrichment.js:88 | non-empty lines join to an empty text only when there are none, so the fallback applies exactly then |
| Enrichment.BracketSpan | api/src/enrichment.js:48 | the match runs from the first `[` to the last `]` after it; there is none exactly when no `]` follows the first `[` |
| Enrichment.SuggestedIds | api/src/enrichment.js:43-53 | the answer parsed as JSON, else its bracketed part; only a non-empty array is used |
| Enrichment.TagIds | api/src/enrichment.js:17-55 | exactly the ids of the tag ideas |
| Enrichment.Plan | api/src/enrichment.js:9-55 | the run goes on only for a stored, non-tag idea with a readable blob when tags exist, and then with a non-empty suggestion list and the set of tag ids |
| Enrichment.PlanFollowsAnswer | api/src/enrichment.js:23-53 | once idea, tags and blob are there, the run goes on exactly when the model call succeeds and names a non-empty array, whose items are the suggestions |
| Enrichment.PlanNeedsBlob | api/src/enrichment.js:23 | an unreadable blob stops the run |
| Enrichment.InsertOrIgnore | api/src/enrichment.js:61-67 | the row is added unless it collides with a stored one; nothing else changes |
| Enrichment.LinkTag | api/src/enrichment.js:61-67 | one id is used, and a `tagged_with` row from the idea to the tag is inserted or ignored |
| Enrichment.LinkAll | api/src/enrichment.js:58-68 | the loop only adds rows; every row added is a `tagged_with` edge from the idea to a suggested id that names a tag, and every such id ends up linked unless an id drawn for the run was already taken |
| Enrichment.Enrich | api/src/enrichment.js:9-72 | when the run stops nothing is written; otherwise only the links `LinkAll` adds are written, each from the idea to a suggested tag; no other table changes |
| Enrichment.LinkedAfter | api/src/enrichment.js:61-67 | after an insert-or-ignore the edge is stored unless its id was taken, and every earlier edge and id survives |
| McpTools.CatalogueMatchesDispatch | api/src/routes/mcp.js:9-121 | the catalogue lists the nine tools the dispatch handles, each once and in the same order, and each required argument is a declared property |
| McpTools.CatalogueJson | api/src/routes/mcp.js:9-121 | nine tool entries, each naming its tool |
| McpTools.Interpolate | api/src/routes/mcp.js:190 | a missing value renders as `undefined`, a present one as its text |
| McpTools.ListTags | api/src/routes/mcp.js:125-137 | `list_tags` answers the same tag rows as the tags route |
| McpTools.SearchTool | api/src/routes/mcp.js:174-177 | `search_ideas` succeeds exactly when the search does and answers its rows; a failure carries the search's message |
| McpTools.ListTool | api/src/routes/mcp.js:179-186 | `list_ideas` succeeds exactly when `listIdeas` does and answers its page object |
| McpTools.IdeaDetailJson | api/src/routes/mcp.js:198 | the answer holds the idea, the blob or `{}`, the connections and the notes under their keys |
| McpTools.GetIdeaTool | api/src/routes/mcp.js:188-199 | an unbindable id fails; an unknown id answers an `error` naming it; otherwise the detail, failing only when the blob cannot be read |
| McpTools.CaptureBlob | api/src/routes/mcp.js:144 | the blob holds the content under `text`, and is `{}` without content |
| McpTools.InsertEdge | api/src/routes/mcp.js:159-242 | ids that cannot bind fail first (from, then to); otherwise the row is appended exactly when it binds and collides with nothing |
| McpTools.TagAll | api/src/routes/mcp.js:156-167 | one fresh id per tag id; only `tagged_with` rows from the new idea at `now` are appended; without failures there is exactly one edge per element, in order |
| McpTools.CaptureRow | api/src/routes/mcp.js:145-154 | the captured row is a `note` without url or summary, at its data key and time, titled by a text `title`; it is refused only for a title that cannot bind |
| McpTools.TagCaptured | api/src/routes/mcp.js:156-168 | a falsy `tag_ids.length` writes nothing; a truthy one that is not an array fails as `map is not a function`; an array is tagged element by element |
| McpTools.StoreCapture | api/src/routes/mcp.js:142-154 | the blob is written first; the row is appended exactly when it binds and its id is free |
| McpTools.CaptureIdea | api/src/routes/mcp.js:139-172 | `capture_idea`: the blob is always written; a failed insert fails with no row and no edges; otherwise the row is added, tagged with every id, and answered |
| McpTools.CreateIdea | api/src/routes/mcp.js:201-220 | `create_idea`: the blob `data` or `{}` is written; the row is appended exactly when it binds and its id is free, and answered |
| McpTools.TaggedEdge | api/src/routes/mcp.js:224-230 | the edge exists exactly when both ids bind, and is a `tagged_with` edge between them at `now` |
| McpTools.TagIdea | api/src/routes/mcp.js:222-232 | `tag_idea`: the edge is appended exactly when it binds and is not stored yet, and the answer echoes the ids |
| McpTools.CreateConnection | api/src/routes/mcp.js:234-244 | `create_connection`: the edge is appended exactly when the ids and label bind and it collides with nothing; the answer echoes the arguments |
| McpTools.AddNote | api/src/routes/mcp.js:246-252 | `add_note`: the note is appended exactly when the idea id and body bind and its id is free, even for an unknown idea, and answered as read back |
| McpTools.ToolGroups | api/src/routes/mcp.js:123-256 | every tool name is either a reading or a writing tool, never both |
| McpTools.ReadTool | api/src/routes/mcp.js:125-199 | a reading tool answers what its tool function gives |
| McpTools.WriteTool | api/src/routes/mcp.js:139-252 | each writing tool does exactly what its own tool does: `capture_idea` the capture, `create_idea` the creation, `tag_idea` the tag edge, `create_connection` the labelled edge, `add_note` the note; media and OAuth tables are untouched |
| McpTools.ExecuteTool | api/src/routes/mcp.js:123-257 | an unknown name fails with `Unknown tool: <name>` and a reading tool answers what its function gives, neither changing the tables or the bucket; a writing tool does what its name selects |
| Mcp.RpcResult | api/src/routes/mcp.js:259-261 | a JSON-RPC 2.0 envelope with the id and the result |
| Mcp.RpcError | api/src/routes/mcp.js:263-265 | a JSON-RPC 2.0 envelope with the id, no result, and an error with the code and message |
| Mcp.InitializeResult | api/src/routes/mcp.js:274-278 | protocol version `2024-11-05` and a `tools` capability |
| Mcp.CallReply | api/src/routes/mcp.js:292-302 | a tool's result is one text item with its JSON; a failure is `Error: <message>` with `isError` set; never a JSON-RPC error |
| Mcp.ReplyTo | api/src/routes/mcp.js:267-306 | a message gets a reply exactly when it is answered or called, in an envelope with its id, and fails exactly when it is rejected; a call's reply is a result, never an error, marked `isError` when the tool failed |
| Mcp.Route | api/src/routes/mcp.js:267-306 | non-objects throw; a message without id (or an array) is a notification; `initialize`, `ping` and `tools/list` get their results; `tools/call` without a name is -32602; any other method is -32601 naming it |
| Mcp.HandleMessage | api/src/routes/mcp.js:267-306 | the reply is the one for the message given the outcome of the tool it ran, and that outcome is what `executeTool` gives from the tables before; only tool calls change the tables |
| Mcp.RepliedIds | api/src/routes/mcp.js:317-318 | at most one reply id per message of the batch |
| Mcp.FirstReject | api/src/routes/mcp.js:317 | there is no throw exactly when no message of the batch is rejected |
| Mcp.NotificationsOnly | api/src/routes/mcp.js:318-319 | a batch gets no replies exactly when every message is a notification or throws |
| Mcp.IdsOf | api/src/routes/mcp.js:318 | one id per reply |
| Mcp.Answers | api/src/routes/mcp.js:317 | one answer per message of the batch |
| Mcp.AnswersEach | api/src/routes/mcp.js:317 | each message's answer is the one `handleMessage` gives for it and its own tool's outcome |
| Mcp.Kept | api/src/routes/mcp.js:318 | no more replies than answers |
| Mcp.RepliesTo | api/src/routes/mcp.js:317-318 | at most one reply per message |
| Mcp.RepliesAreRpc | api/src/routes/mcp.js:317-318 | every reply of a batch is a JSON-RPC 2.0 message |
| Mcp.KeptRpc | api/src/routes/mcp.js:318 | filtering out the null answers keeps only the replies, so JSON-RPC 2.0 answers give JSON-RPC 2.0 replies |
| Mcp.RepliesCarryIds | api/src/routes/mcp.js:317-318 | the replies carry, in order, the ids of exactly the messages that get a reply, and the first throw among the answers is that of the first rejected message |
| Mcp.RepliedIdsStep | api/src/routes/mcp.js:317-318 | one more message adds its id exactly when it gets a reply, and the first throw stays the first |
| Mcp.TracedEach | api/src/routes/mcp.js:317 | a trace is one step per message: message `j` takes the tables from the `j`-th state to the next as its tool does |
| Mcp.AnsweredAll | api/src/routes/mcp.js:317 | answers given one message at a time are the batch's answers |
| Mcp.HandleBatch | api/src/routes/mcp.js:317-318 | the replies are those of the messages in order, each for the outcome of its own tool; the states trace the batch, each message moving the tables as its tool does (a writing tool its effect, anything else nothing, a call of an unknown name failing); the first throw is reported |
| Mcp.Step | api/src/routes/mcp.js:267-306 | the reply is the one for the message given its tool's outcome, and the tables move as that tool's step |
| Mcp.TraceStep | api/src/routes/mcp.js:317 | a trace grows by one message's step |
| Mcp.AnswerStep | api/src/routes/mcp.js:317 | the answers grow by one message's answer |
| Mcp.KeptStep | api/src/routes/mcp.js:318 | one more answer adds its reply, if any, and its throw unless an earlier answer threw |
| Mcp.HandleOne | api/src/routes/mcp.js:317-318 | handling the next message of a batch extends its trace and answers by that message's, keeps the replies those of the answers and the first throw the first |
| Mcp.HandleRequest | api/src/routes/mcp.js:308-326 | bad JSON is a 400 -32700 with a null id and changes nothing; a batch answers the array of its messages' replies in order, 202 when there are none, and fails on a throw, the states tracing the batch message by message as each tool moves the tables; a single message answers its own reply, 202 when it gets none, or throws, its call having the outcome `executeTool` gives and any other message changing nothing |
| OAuth.Esc | api/src/routes/oauth.js:174-176 | a missing value escapes to the empty text; the result holds no `"` and no `<`; a text without `&`, `"` or `<` is left as it is |
| OAuth.EscIsEscaped | api/src/routes/oauth.js:175 | the three global replacements in a row escape each character exactly once, as a single per-character escape would |
| OAuth.UnescapeEsc | api/src/routes/oauth.js:207-211 | a value put in a hidden field of the approval page comes back unchanged when the browser posts the form: HTML unescaping undoes `esc` |
| OAuth.UnescapeEscaped | api/src/routes/oauth.js:175 | the per-character escape is undone by HTML unescaping |
| OAuth.UrlSafe | api/src/routes/oauth.js:167-170 | the encoded challenge holds no `+`, `/` or `=`; a text with none of them is left as it is |
| OAuth.UrlSafeIsByChar | api/src/routes/oauth.js:167-170 | the three global replacements rewrite each character on its own (`+` to `-`, `/` to `_`, `=` dropped) |
| OAuth.UrlSafeIdempotent | api/src/routes/oauth.js:167-170 | encoding an encoded challenge again changes nothing |
| OAuth.VerifyPkce | api/src/routes/oauth.js:165-172 | only a challenge free of `+`, `/` and `=` can match; when the digest's base64 holds none of them, the check is that text equalling the challenge |
| OAuth.FindClient | api/src/routes/oauth.js:62-65 | a found client is stored under the id asked for; none is found exactly when no stored client has that id |
| OAuth.FindCode | api/src/routes/oauth.js:131-134 | a found code row is stored under the code asked for; none is found exactly when no row holds that code |
| OAuth.InsertClient | api/src/routes/oauth.js:39-42 | the client row is appended exactly when its id is free; the other tables are unchanged |
| OAuth.InsertCode | api/src/routes/oauth.js:99-105 | the code row is appended exactly when its code is free; the other tables are unchanged |
| OAuth.DeleteCode | api/src/routes/oauth.js:153 | the rows with that code are gone and nothing else is removed; the code is no longer found |
| OAuth.InsertToken | api/src/routes/oauth.js:157-160 | the token row is appended exactly when its token is free; the other tables are unchanged |
| OAuth.OAuthError | api/src/routes/oauth.js:28-33 | a JSON reply with the given status whose `error` is the code, carrying `error_description` only when one is given |
| OAuth.Metadata | api/src/routes/oauth.js:9-20 | the issuer is the base URL, the three endpoints sit under it, and S256 is the only challenge method |
| OAuth.RegistrationJson | api/src/routes/oauth.js:44-51 | the reply names the client id and echoes the redirect URIs, with the issue time in whole seconds and no client authentication |
| OAuth.RedirectUris | api/src/routes/oauth.js:31-34 | the redirect URIs are accepted exactly when the body holds them as a non-empty array, and are that array |
| OAuth.Register | api/src/routes/oauth.js:23-52 | a body that is not JSON is a 400, a `null` body throws, missing redirect URIs are a 400 `redirect_uris required`; a 201 exactly when the URIs are given and the generated id is free, and then the client is appended and the reply names it; otherwise no client is stored; other tables are unchanged |
| OAuth.LookupClient | api/src/routes/oauth.js:62-65 | an absent client id cannot be bound and throws; a given one finds the client stored under it |
| OAuth.ShowAuthorize | api/src/routes/oauth.js:55-75 | the approval page, carrying the request's parameters, is shown exactly when the response type is `code`, the client is known and the redirect URI is one it registered; another response type is `unsupported_response_type`, an unknown client `invalid_client` |
| OAuth.OrNullText | api/src/routes/oauth.js:104 | an absent or empty challenge is stored as NULL, any other as given |
| OAuth.CodeRow | api/src/routes/oauth.js:96-105 | the stored code row names the client and redirect URI, is created now and expires one minute later, with an empty challenge stored as NULL |
| OAuth.RedirectParams | api/src/routes/oauth.js:107-109 | the redirect carries the code first, then the state exactly when a non-empty one was given |
| OAuth.Approve | api/src/routes/oauth.js:78-112 | a wrong API key shows the page again with `Invalid API key.` as a 401 and stores nothing; an unknown client is `invalid_client`; the browser is redirected exactly when the key matches, the client is known, the redirect URI parses and the code is free, and then the code row is appended and the redirect carries the code and state; no other table changes |
| OAuth.FormObject | api/src/routes/oauth.js:119 | the parsed form is an object with one text field per form field, in order |
| OAuth.TokenBody | api/src/routes/oauth.js:116-122 | a content type mentioning `application/json` is read as JSON, any other as form fields; a body that fails to parse is absent |
| OAuth.Found | api/src/routes/oauth.js:131-136 | a found code row is stored and holds exactly the code the request binds |
| OAuth.Exchange | api/src/routes/oauth.js:124-150 | a code is redeemed exactly when the request's code is stored and the request satisfies it (grant type, client, redirect URI, expiry, PKCE); every refusal is a 400 or, for a code that cannot bind, a throw; a wrong grant type is `unsupported_grant_type` and an unknown code `invalid_grant` |
| OAuth.ExchangeComplete | api/src/routes/oauth.js:131-150 | with codes unique, a stored code that the request satisfies in every respect is the one redeemed |
| OAuth.ExpiredRefused | api/src/routes/oauth.js:139 | an expired code, named with its own client and redirect URI, is refused with `Code expired` |
| OAuth.CodeLifetimeHolds | api/src/routes/oauth.js:104-139 | a code without a challenge is redeemable by a matching request exactly until one minute after it was issued |
| OAuth.RedeemedOnce | api/src/routes/oauth.js:152-153 | once a code is deleted no request redeems it again |
| OAuth.TokenJson | api/src/routes/oauth.js:162 | the reply carries the token as `access_token` of type `Bearer` |
| OAuth.RedeemCode | api/src/routes/oauth.js:152-162 | the code is deleted; the token, two generated ids end to end, is stored for the code's client and returned exactly when it is free |
| OAuth.IssueToken | api/src/routes/oauth.js:115-163 | an unparsable body is a 400, a `null` body throws, a refused exchange is its refusal and changes nothing; a 200 exactly when a code is redeemed and the token is free, and then the code is deleted, the token stored for its client and returned |
| Social.RunEnd | chrome-extension/background/social.js:29 | a greedy character-class run: every character up to the end is in the class and the next one, if any, is not |
| Social.RunsAround | chrome-extension/background/social.js:29 | a match of `(class+)literal(tail+)` yields group ends that split the text that way, the second run taken to its end |
| Social.SecondGroup | chrome-extension/background/social.js:31 | the second group captured is non-empty and made of tail-class characters |
| Social.RunsAroundComplete | chrome-extension/background/social.js:29-31 | when the literal cannot continue the first run, any split of the text is found, with the same first group and a second group at least as long |
| Social.Leftmost | chrome-extension/background/social.js:11 | the leftmost position from which an unanchored pattern matches, none exactly when it matches nowhere |
| Social.WatchId | chrome-extension/background/social.js:11 | the 11 characters after `?v=` or `&v=` at the leftmost match; none when the pattern matches nowhere |
| Social.ShortLinkId | chrome-extension/background/social.js:14 | the 11 characters after `youtu.be/` at the leftmost match; none when it matches nowhere |
| Social.ShortsId | chrome-extension/background/social.js:17 | the 11 characters after `youtube.com/shorts/` at the leftmost match; none when it matches nowhere |
| Social.YouTubeVideo | chrome-extension/background/social.js:10-18 | first match wins: the watch capture when the URL also contains `youtube.com`, else the youtu.be capture, else the Shorts capture, each taken at its leftmost match; the id is 11 word characters or `-`; no video exactly when all three tests fail |
| Social.TikTokId | chrome-extension/background/social.js:20-21 | at the leftmost `tiktok.com/@<handle>/video/` match, the digit run the group captures; none exactly when the pattern matches nowhere |
| Social.DetectVideo | chrome-extension/background/social.js:9-23 | a video is youtube with an 11-character id or tiktok with a digit id; TikTok is tried only after every YouTube test failed, and its id is then TikTokId's capture; no video exactly when all four tests fail |
| Social.WatchRecognised | chrome-extension/background/social.js:11-12 | a URL that mentions `youtube.com` and whose first watch link is at `k` is detected with the 11 characters after `v=`, whatever later links it holds |
| Social.WatchBeforeShortLink | chrome-extension/background/social.js:11-15 | a URL holding a watch link and then a youtu.be link matches both patterns and is detected with the watch link's id |
| Social.ShortLinkRecognised | chrome-extension/background/social.js:14-15 | without a counting watch link, the leftmost youtu.be link gives the id, even when a Shorts link comes first |
| Social.ShortsRecognised | chrome-extension/background/social.js:17-18 | with neither a counting watch link nor a youtu.be link, the leftmost Shorts link gives the id |
| Social.TikTokRecognised | chrome-extension/background/social.js:20-21 | a URL that is no YouTube video and whose first TikTok link has handle and digits is detected as tiktok with all the digits after `/video/` |
| Social.YouTubeFirst | chrome-extension/background/social.js:9-21 | whenever a YouTube test matches, it decides, whatever TikTok test would match |
| Social.WatchNeedsYouTube | chrome-extension/background/social.js:11-12 | a `v=` parameter in a URL without `youtube.com` is no video unless another pattern matches |
| Social.SchemeEnd | chrome-extension/background/social.js:29 | where an anchored `https?://` ends, within the text |
| Social.SkipAt | chrome-extension/background/social.js:29 | the optional `@` before the handle is skipped within the text |
| Social.Handle | chrome-extension/background/social.js:30 | the author is `@` followed by the captured handle |
| Social.TwitterStart | chrome-extension/background/social.js:29 | the handle of an X or Twitter post link starts after the anchored scheme, host and optional `@` |
| Social.Twitter | chrome-extension/background/social.js:26-32 | a match is anchored at the start and gives an author `@` plus word characters and a post id of digits |
| Social.ThreadsStart | chrome-extension/background/social.js:36 | the handle of a Threads link starts after the anchored scheme, optional `www.`, the `.com` or `.net` host and `/@` |
| Social.Threads | chrome-extension/background/social.js:33-39 | a match is anchored and gives an author `@` plus word characters or dots and a post id of word characters |
| Social.BlueskyStart | chrome-extension/background/social.js:43 | the handle of a Bluesky link starts after the anchored scheme and `bsky.app/profile/` |
| Social.Bluesky | chrome-extension/background/social.js:40-46 | a match is anchored and gives the handle (word characters, dots, `@`) as author and a post id of word characters |
| Social.DetectSocialPost | chrome-extension/background/social.js:53-61 | a missing URL is no post; a post is twitter, threads or bluesky with a non-empty word-character id (digits for twitter) and an `@` author except on bluesky; no post exactly when all three patterns fail |
| Social.TwitterRecognised | chrome-extension/background/social.js:26-32 | every `x.com`/`twitter.com` status link is recognised as that handle's twitter post, whatever follows the digits |
| Social.BlueskyRecognised | chrome-extension/background/social.js:40-57 | every Bluesky post link is recognised as bluesky with the handle as author |
| Social.BlueskyHostExcludes | chrome-extension/background/social.js:29-36 | a `bsky.app` URL matches neither the X/Twitter nor the Threads pattern |
| Social.VideoTitle | chrome-extension/background/service-worker.js:156 | the page title cut before its leftmost YouTube suffix and trimmed, or the title itself when that leaves nothing; never empty unless the title is |
| Social.VideoTitleStripsSuffix | chrome-extension/background/service-worker.js:156 | a trimmed title followed by ` - YouTube` loses exactly that suffix |
| Capture.RequestStored | api/src/routes/ideas.js:38-73 | a client request with a type is accepted by the create handler, which stores its type, title and summary as sent and its URL when given |
| Capture.LinkTags | chrome-extension/popup/popup.js:178-185 | one `tagged_with` connection from the new idea to each chosen tag, in order |
| ServiceWorker.JoinUrl | chrome-extension/background/service-worker.js:19 | the URL ends in the path and starts with the base, of which at most one trailing slash is dropped |
| ServiceWorker.JoinUrlSlash | chrome-extension/background/service-worker.js:19 | a base with or without its trailing slash gives the same URL |
| ServiceWorker.JoinUrlOneSlash | chrome-extension/background/service-worker.js:19 | only one trailing slash is dropped |
| ServiceWorker.PostRequest | chrome-extension/background/service-worker.js:19-27 | a POST to the joined URL carrying the API key as a Bearer token |
| ServiceWorker.JsonPayload | chrome-extension/background/service-worker.js:26 | the body is sent as JSON exactly when there is one, and never as a form |
| ServiceWorker.GetRequest | chrome-extension/background/service-worker.js:38-41 | a GET to the joined URL carrying only the Bearer token and no body |
| ServiceWorker.FailureMessage | chrome-extension/background/service-worker.js:28-31 | the thrown message is the status text for a body that is not JSON, the body's `error` text when there is one, else `HTTP <status>` |
| ServiceWorker.ApiPost | chrome-extension/background/service-worker.js:14-33 | without configuration it throws the configuration message; a network failure throws; a reply outside 2xx throws its failure message; otherwise the parsed body |
| ServiceWorker.ApiGet | chrome-extension/background/service-worker.js:35-44 | `null` without configuration or for a reply outside 2xx; a network failure rejects; otherwise the parsed body |
| ServiceWorker.UnconfiguredCalls | chrome-extension/background/service-worker.js:14-18 | without configuration neither call depends on the network: POST throws, GET answers `null` |
| ServiceWorker.WorkerErrorSurfaces | chrome-extension/background/service-worker.js:28-31 | an error reply of the Worker, `{error: message}`, surfaces in the extension as exactly its message |
| ServiceWorker.SharedErrorsSurface | chrome-extension/background/service-worker.js:28-31 | each of the Worker's shared 404, 400, 401 and 500 replies surfaces as its message |
| ServiceWorker.SelectionRequest | chrome-extension/background/service-worker.js:85-99 | a quote whose title is the first 80 and summary the first 200 characters of the selection, with the whole selection in its data |
| ServiceWorker.SelectionNests | chrome-extension/background/service-worker.js:89-93 | the title starts the summary, which starts the selection; a selection of at most 80 characters is all three |
| ServiceWorker.WithUrl | chrome-extension/background/service-worker.js:162-167 | the data object starts with the tab URL (left out when the tab has none) and gives every field other than `url` as listed |
| ServiceWorker.TweetRequest | chrome-extension/background/service-worker.js:174-191 | a tweet whose title and summary are the first 80 and 200 characters of the post text, or the page title when no text was found, carrying the author and post id |
| ServiceWorker.PostData | chrome-extension/background/service-worker.js:182-189 | the post's data carries its author and post id |
| ServiceWorker.VideoRequest | chrome-extension/background/service-worker.js:155-170 | a video titled and summarised by the page title without its YouTube suffix, carrying the platform and video id |
| ServiceWorker.PageRequest | chrome-extension/background/service-worker.js:152-205 | a video exactly when the URL is one, else a tweet exactly when it is a social post, else a page titled and summarised by the tab title |
| ServiceWorker.YouTubePageTitle | chrome-extension/background/service-worker.js:156 | a YouTube page titled `<b> - YouTube` is saved as the video `<b>` |
| ServiceWorker.ImageRequest | chrome-extension/background/service-worker.js:207-222 | nothing for a missing or empty image URL; otherwise an image idea at that URL titled `Image from <tab title>` |
| ServiceWorker.UploadName | chrome-extension/background/service-worker.js:230 | the last path segment cut at its first `?`, or `image.jpg` when that is empty; never holds `/` or `?` |
| ServiceWorker.UploadNameOf | chrome-extension/background/service-worker.js:230 | an image at `…/<name>?<query>` is uploaded as `<name>` |
| ServiceWorker.UploadRequest | chrome-extension/background/service-worker.js:225-238 | an upload is sent exactly when the image downloaded and the created idea is not `null`, to that idea's media route under the file name |
| ServiceWorker.Destructure | chrome-extension/background/service-worker.js:87 | a failed call propagates its error, `null` throws, otherwise the field is read |
| ServiceWorker.ClickRequest | chrome-extension/background/service-worker.js:67-75 | no request for an unknown menu entry or for the image entry without an image URL |
| ServiceWorker.Clicked | chrome-extension/background/service-worker.js:67-83 | a click without a request succeeds; otherwise its outcome is that of the create call, never that of the image upload |
| ServiceWorker.ClickBadges | chrome-extension/background/service-worker.js:67-83 | an unknown entry or an image click without URL shows the success badge; a save while unconfigured fails with the configuration message |
| ServiceWorker.Answer | chrome-extension/background/service-worker.js:249-254 | `ok` says whether the call succeeded; a failure carries its message as `error`, a success the created object |
| ServiceWorker.TagsAnswer | chrome-extension/background/service-worker.js:256-261 | always `ok`, with the listed tags or an empty list when the call failed or answered `null` |
| ServiceWorker.HandleMessage | chrome-extension/background/service-worker.js:248-269 | `SAVE_IDEA` and `CREATE_CONNECTION` post the payload and answer with the created object; `GET_TAGS` answers the tags; any other type gets no answer |
| ServiceWorker.UnconfiguredAnswers | chrome-extension/background/service-worker.js:248-269 | without configuration the saves answer with the configuration error and the tag request with an empty list |
| Popup.DetectVideo | chrome-extension/popup/popup.js:6-14 | the popup's recogniser agrees with the extension's except that a TikTok link is no video |
| Popup.DetectSocialPost | chrome-extension/popup/popup.js:17-29 | the popup's recogniser finds a post exactly when the extension's does, with the same platform and author |
| Popup.NonEmpty | chrome-extension/popup/popup.js:162-163 | an empty field is sent as `null`, any other as it is |
| Popup.Summary | chrome-extension/popup/popup.js:164 | no summary exactly when both content and title are empty; with content, a non-empty prefix of it of at most 200 characters; else the title |
| Popup.Data | chrome-extension/popup/popup.js:137-155 | a video names youtube and the recognised id or `null`; a tweet's author is `null` exactly when no post is recognised; a quote carries the content and source URL; an unknown type only the content |
| Popup.VideoData | chrome-extension/popup/popup.js:140-145 | the platform is youtube and the video id the recognised one, else `null` |
| Popup.QuoteData | chrome-extension/popup/popup.js:146 | the content as `text` and the URL as `source_url` |
| Popup.TweetData | chrome-extension/popup/popup.js:148-152 | the content as `text`; the author `null` exactly when no post is recognised |
| Popup.Payload | chrome-extension/popup/popup.js:157-168 | the type as chosen, empty title and URL sent as `null`, the summary and data as above |
| Popup.TagSelection.Toggle | chrome-extension/popup/popup.js:110-117 | a click removes a selected tag and adds an unselected one, keeping the selection free of repeats |
| Popup.Removed | chrome-extension/popup/popup.js:112 | the selection without the id, everything else kept |
| Popup.Toggled | chrome-extension/popup/popup.js:111-115 | the id is selected afterwards exactly when it was not before; every other id is unchanged |
| Popup.ToggleTwice | chrome-extension/popup/popup.js:110-117 | two clicks on a tag restore the selected set, and its order when the tag was not selected |
| Popup.LinkSelected | chrome-extension/popup/popup.js:170-185 | no connections after a failed save; otherwise one `tagged_with` connection from the new idea to each selected tag, in order |
| ClientModels.FromRaw | ios/SFL/Shared/Theme.swift:101 | a known type name reads as that type; any other text reads as `note` |
| ClientModels.RawValueRoundTrip | ios/SFL/Shared/Theme.swift:64-101 | every idea type reads back as itself from its name |
| ClientModels.DisplayTitle | ios/SFL/Shared/Models.swift:18-20 | the title when present and non-empty, else the url, else `(untitled)` |
| ClientModels.DisplayTitleEmpty | ios/SFL/Shared/Models.swift:18-20 | a display title is empty exactly when the title is missing or empty and the url is the empty text |
| ClientModels.DecodeString | ios/SFL/Shared/Models.swift:5-16 | a required text field decodes exactly when the key holds a string, to that string |
| ClientModels.DecodeOptString | ios/SFL/Shared/Models.swift:8-10 | an optional text field decodes when missing, `null` or a string; missing and `null` give `nil` |
| ClientModels.DecodeInt | ios/SFL/Shared/Models.swift:11 | a required `Int` field decodes exactly when the key holds a whole number in the 64-bit range, to that number |
| ClientModels.DecodeOptInt | macos/Sources/Models.swift:50 | an optional `Int` field decodes when missing, `null` or an in-range whole number; missing and `null` give `nil` |
| ClientModels.DecodeIdea | ios/SFL/Shared/Models.swift:5-16 | an idea decodes exactly when every field decodes under its coding key (`created_at` for the creation time), and holds those values |
| ClientModels.IdeaRoundTrip | ios/SFL/Shared/Models.swift:5-16 | every stored idea the Worker serialises (with a type and an in-range time) decodes to the same idea |
| ClientModels.IdeaJsonFields | ios/SFL/Shared/Models.swift:13-16 | the Worker's idea JSON holds each field the app reads under the app's coding key |
| ClientModels.DecodeIdeas | ios/SFL/Shared/Models.swift:124 | a list decodes exactly when every element does, element by element |
| ClientModels.FromRows | ios/SFL/Shared/Models.swift:124 | the app's view of the listed rows, one idea per row in order |
| ClientModels.RowsRoundTrip | ios/SFL/Shared/Models.swift:124 | a list of stored rows the Worker sends decodes to those ideas, in order |
| ClientModels.DecodePage | macos/Sources/Models.swift:48-56 | a page decodes exactly when its ideas do and `nextCursor` is missing, `null` or a number; the cursor is read from `nextCursor` |
| ClientModels.PageRoundTrip | macos/Sources/Models.swift:48-56 | a page shaped like the Worker's listing decodes to its ideas and its cursor |
| MacModels.DecodeConnection | macos/Sources/Models.swift:25-44 | a connection decodes exactly when every field decodes under its snake-case key, with both ends' ids, types and the label read as sent |
| MacModels.ConnectionRoundTrip | macos/Sources/Models.swift:25-44 | every joined connection row whose two ends have a type decodes to that connection |
| MacModels.ViewJsonFields | macos/Sources/Models.swift:35-43 | the Worker's connection listing holds each column the app reads under the app's coding key |
| MacModels.ViewKeysDistinct | macos/Sources/Models.swift:35-43 | the listing's column names are pairwise different |
| MacModels.UntypedEndFails | macos/Sources/Models.swift:29-32 | a connection whose end idea has no type fails to decode |
| MacModels.ListingRoundTrip | macos/Sources/Models.swift:48-56 | the page the Worker's listing returns decodes to its ideas and the same cursor |
| IosModels.ConnectedTitle | ios/SFL/Shared/Models.swift:97 | the title whenever there is one (even empty), else the url, else `(untitled)` |
| IosModels.ConnectedTitleDiffers | ios/SFL/Shared/Models.swift:18-97 | the connected idea and the idea show different titles exactly when the title is empty and the url is not the empty text |
| IosModels.Select | ios/SFL/Shared/Models.swift:60-66 | the connections that are tags (or are not), each one kept exactly when its label is `tagged_with` (or is not) |
| IosModels.Tags | ios/SFL/Shared/Models.swift:60-62 | exactly the connections labelled `tagged_with`; none when the detail came without connections |
| IosModels.Related | ios/SFL/Shared/Models.swift:64-66 | exactly the other connections, an unlabelled one included; none without connections |
| IosModels.SelectAppend | ios/SFL/Shared/Models.swift:60-66 | selection is a filter and keeps the order of the list |
| IosModels.SelectPartition | ios/SFL/Shared/Models.swift:60-66 | tags and related connections together hold every connection once, repeats included |
| IosModels.TagsAndRelated | ios/SFL/Shared/Models.swift:60-66 | the detail's two lists partition its connections |
| IosModels.DecodeIosPage | ios/SFL/Shared/Models.swift:123-126 | the iOS page decodes when its ideas do and `cursor` is missing, `null` or text; its cursor is read from `cursor` |
| IosModels.CursorNeverRead | ios/SFL/Shared/Models.swift:123-126 | every page the Worker's listing returns decodes on iOS with its ideas but no cursor |
| IosModels.CursorLostExample | ios/SFL/Shared/Models.swift:123-126 | a first page followed by more keeps its cursor under the `nextCursor` decoder and loses it under the iOS one |
| CaptureForm.HasId | ios/SFLShareExtension/ShareView.swift:195 | true exactly when a picked tag has the id |
| CaptureForm.HasName | ios/SFLShareExtension/ShareView.swift:203 | true exactly when a picked tag has the name, ignoring case |
| CaptureForm.HasTitle | ios/SFLShareExtension/ShareView.swift:134 | true exactly when a listed tag's title, or the empty text, equals the query ignoring case |
| CaptureForm.PickedIds | ios/SFLShareExtension/ShareView.swift:124 | exactly the ids of the existing tags picked |
| CaptureForm.Pool | ios/SFLShareExtension/ShareView.swift:125-127 | the listed tags not picked whose title contains the query (any title when it is empty) |
| CaptureForm.PoolAppend | ios/SFLShareExtension/ShareView.swift:125-127 | the pool keeps the order of the tag list |
| CaptureForm.Suggestions | ios/SFLShareExtension/ShareView.swift:123-129 | the first six tags of the pool: listed, not picked, and matching a non-empty query |
| CaptureForm.CanCreateNewTag | ios/SFLShareExtension/ShareView.swift:131-137 | the trimmed query is non-blank and names, ignoring case, no listed tag and no picked one |
| CaptureForm.WithExisting | ios/SFLShareExtension/ShareView.swift:194-198 | the list keeps its tags and grows by at most one; afterwards the id is picked; it is unchanged exactly when the id already was |
| CaptureForm.WithNamed | ios/SFL/Views/IdeasListView.swift:373-376 | the list keeps its tags and grows by at most one; afterwards the name is picked; it is unchanged exactly when a picked tag already had the name, ignoring case |
| CaptureForm.WithQuery | ios/SFLShareExtension/ShareView.swift:200-206 | a blank trimmed query changes nothing; otherwise the trimmed name is picked afterwards; the list keeps its tags and grows by at most one |
| CaptureForm.WithoutMembers | ios/SFLShareExtension/ShareView.swift:208-210 | every picked tag with the id is removed, the others kept |
| CaptureForm.WithoutAppend | ios/SFLShareExtension/ShareView.swift:209 | removal keeps the order of the tags that stay |
| CaptureForm.WithoutAbsent | ios/SFLShareExtension/ShareView.swift:209 | removing an id that is not picked changes nothing |
| CaptureForm.RemoveUndoesAdd | ios/SFLShareExtension/ShareView.swift:194-210 | adding a tag and removing it again gives back the list |
| CaptureForm.AddTwice | ios/SFLShareExtension/ShareView.swift:194-206 | adding the same tag (or the same name) twice is adding it once |
| CaptureForm.WithExistingWellFormed | ios/SFLShareExtension/ShareView.swift:194-198 | adding an existing tag keeps the picked ids distinct and new names unrepeated |
| CaptureForm.WithNamedWellFormed | ios/SFLShareExtension/ShareView.swift:200-206 | adding a new name under a fresh UUID keeps the picked ids distinct and new names unrepeated |
| CaptureForm.WithoutWellFormed | ios/SFLShareExtension/ShareView.swift:208-210 | removal keeps the picked ids distinct and new names unrepeated |
| CaptureForm.CreatableIsAdded | ios/SFLShareExtension/ShareView.swift:369 | a name the create button accepts is appended as a new tag |
| CaptureForm.TagPicker.AddExistingTag | ios/SFLShareExtension/ShareView.swift:194-198 | the tag is appended unless its id is picked, and the query is cleared only when it was |
| CaptureForm.TagPicker.AddNewTag | ios/SFLShareExtension/ShareView.swift:200-206 | the trimmed query is appended as a new tag unless blank or already picked by name, and the query cleared only then |
| CaptureForm.TagPicker.Submit | ios/SFLShareExtension/ShareView.swift:369 | submitting adds the trimmed query exactly when a new tag can be created, and otherwise changes nothing |
| CaptureForm.TagPicker.RemoveTag | ios/SFLShareExtension/ShareView.swift:208-210 | every picked tag with the id is removed; the query is kept |
| CaptureForm.FallbackTitle | ios/SFLShareExtension/ShareView.swift:541-553 | the title when typed, else the URL, else the text; never an empty title |
| CaptureForm.Member | macos/Sources/Models.swift:58-64 | a `nil` member is left out of the JSON text; any other is found under its key |
| CaptureForm.DataFields | macos/Sources/Models.swift:63 | one JSON member per dictionary entry |
| CaptureForm.BodyJsonFields | macos/Sources/Models.swift:58-64 | the Worker finds each member of the body under its own key and a `nil` member not at all |
| CaptureForm.BodyLookup | macos/Sources/Models.swift:58-64 | a key of the body finds the first member that binds it |
| CaptureForm.ProjectOf | ios/SFLShareExtension/ShareView.swift:543-549 | a project found is one of the dictionary's entries |
| CaptureForm.DataProject | api/src/routes/ideas.js:57 | the Worker's `data?.project ?? null` on the sent dictionary is its project or `null` |
| CaptureForm.StoredUrl | api/src/routes/ideas.js:57 | the stored url is the body's own, and none for a non-meta body without one |
| CaptureForm.StoredAsSent | api/src/routes/ideas.js:38-73 | every body with a type is accepted, and the row holds the type, title, summary and url sent (a meta idea's project when it has no url) |
| CaptureForm.TagStored | ios/SFLShareExtension/ShareView.swift:562 | a tag created while saving is stored as a `tag` idea titled by its name, with no url and no summary |
| CaptureForm.Step | ios/SFLShareExtension/ShareView.swift:559-568 | one pass sends one request, or two for a new tag whose creation is answered |
| CaptureForm.StepFailsLast | ios/SFLShareExtension/ShareView.swift:559-568 | a pass fails exactly when its last request threw |
| CaptureForm.Failure | ios/SFLShareExtension/ShareView.swift:573-576 | an error exactly when the request threw |
| CaptureForm.Linked | ios/SFLShareExtension/ShareView.swift:559-568 | the loop sends at most two requests per tag |
| CaptureForm.LinkedFailsLast | ios/SFLShareExtension/ShareView.swift:559-568 | a loop that failed failed on its last request |
| CaptureForm.LinkedAnswered | ios/SFLShareExtension/ShareView.swift:559-568 | the loop stops at the first request that throws: every earlier request was answered |
| CaptureForm.CreatedThenLinked | ios/SFLShareExtension/ShareView.swift:561-567 | an answered tag creation is followed at once by the connection to the tag it created |
| CaptureForm.StepCreated | ios/SFLShareExtension/ShareView.swift:561-567 | within a pass, an answered creation comes first and the connection to the created tag next |
| CaptureForm.Links | ios/SFLShareExtension/ShareView.swift:567 | the connections among the requests, at most one per request |
| CaptureForm.LinksAppend | ios/SFLShareExtension/ShareView.swift:567 | the connections of two runs of requests are those of each, in order |
| CaptureForm.Created | ios/SFLShareExtension/ShareView.swift:562 | the tags created among the requests, at most one per request |
| CaptureForm.CreatedAppend | ios/SFLShareExtension/ShareView.swift:562 | the tags created by two runs of requests are those of each, in order |
| CaptureForm.StepLinks | ios/SFLShareExtension/ShareView.swift:559-568 | a pass that went through connects the idea to the tag (to the created id for a new one) and creates only a new tag |
| CaptureForm.LinkCount | ios/SFLShareExtension/ShareView.swift:559-568 | a loop that went through made one connection per tag |
| CaptureForm.LinkAt | ios/SFLShareExtension/ShareView.swift:559-568 | the i-th connection is a `tagged_with` connection from the idea to the i-th tag (its own id when it existed) |
| CaptureForm.LinkedAll | ios/SFLShareExtension/ShareView.swift:559-568 | a loop that went through made one `tagged_with` connection from the idea per tag, in the order picked |
| CaptureForm.LinkedCreated | ios/SFLShareExtension/ShareView.swift:559-568 | a loop that went through created exactly the new tags, in order |
| CaptureForm.ReliableLinks | ios/SFLShareExtension/ShareView.swift:559-568 | when every request is answered the loop goes through |
| CaptureForm.Saved | ios/SFLShareExtension/ShareView.swift:535-577 | the idea is created first; a create that throws ends the save before any tag; otherwise the tag loop follows |
| CaptureForm.LinkedNext | ios/SFLShareExtension/ShareView.swift:559-568 | the loop from tag i is the pass for tag i followed, when it went through, by the loop from tag i+1 |
| CaptureForm.Pass | ios/SFLShareExtension/ShareView.swift:560-567 | one pass appends its requests to those sent, failing as the pass does |
| CaptureForm.Save | ios/SFLShareExtension/ShareView.swift:551-568 | the requests sent one at a time are exactly those of the whole save |
| CaptureView.FirstLine | macos/Sources/CaptureView.swift:19-23 | the longest prefix without a line break: the next character, if any, is one |
| CaptureView.SuggestedTitle | macos/Sources/CaptureView.swift:19-23 | with a browser URL or without selected text, the window title or empty; otherwise the first line of the first 120 characters of the selection |
| CaptureView.AutoType | macos/Sources/CaptureView.swift:25-34 | with a browser URL a post for post sites, a video for video sites, else a page, matched against the lower-cased URL; without one a quote when text was selected, else a note |
| CaptureView.AvailableTypes | macos/Sources/CaptureView.swift:79-83 | five distinct chips with a URL and four without, always offering page, note and quote and never meta or tag |
| CaptureView.AutoTypeOffered | macos/Sources/CaptureView.swift:25-83 | the suggested type is always one of the chips offered |
| CaptureView.MentionIsPost | macos/Sources/CaptureView.swift:25-34 | the whole URL is searched, so an address that mentions `x.com` in its path is read as a post |
| CaptureView.CaptureData | macos/Sources/CaptureView.swift:369-375 | data is sent exactly when text was selected and the type is quote or note |
| CaptureView.CaptureBody | macos/Sources/CaptureView.swift:364-381 | the body has the picked type and the browser URL; its title is never empty; only a quote carries the selection as summary; data is sent exactly when text was selected for a quote or a note |
| CaptureView.CapturedRow | macos/Sources/CaptureView.swift:361-402 | the Worker stores the type, the title (else the URL, else the selection), the browser URL and the selection as summary only for a quote; the blob holds the selection for a quote or note |
| CaptureView.CapturePanel.Appear | macos/Sources/CaptureView.swift:106-109 | the suggested title and type are taken; nothing else changes |
| CaptureView.CapturePanel.Save | macos/Sources/CaptureView.swift:361-402 | the requests are those of the capture's save; success shows it saved and keeps it busy, failure shows the error and allows another try |
| ShareView.TypeForUrlAsWritten | ios/SFLShareExtension/ShareView.swift:517-531 | no host gives note; otherwise the lower-cased host is matched by substring for post sites, then video sites, else page |
| ShareView.BoxAsWritten | ios/SFLShareExtension/ShareView.swift:520 | a file shared from `box.com` is typed as a tweet, since the host contains `x.com` |
| ShareView.TypeForUrl | ios/SFLShareExtension/ShareView.swift:517-531 | as above, but a host is a post or video site only when it is that domain or a subdomain of it |
| ShareView.SubdomainOnDomain | ios/SFLShareExtension/ShareView.swift:520-526 | a site's own host and every subdomain of it are on the site |
| ShareView.OnDomainContains | ios/SFLShareExtension/ShareView.swift:520-526 | a host on a site contains the site's name |
| ShareView.IntendedNarrowsWritten | ios/SFLShareExtension/ShareView.swift:517-531 | every post the domain test finds the substring test finds too, every video is a video or post there, and both give note for the same URLs |
| ShareView.BoxIntended | ios/SFLShareExtension/ShareView.swift:517-531 | the domain test types `box.com` as a page |
| ShareView.SubdomainIntended | ios/SFLShareExtension/ShareView.swift:520 | the domain test still types `mobile.x.com` as a post |
| ShareView.AvailableTypes | ios/SFLShareExtension/ShareView.swift:139-145 | meta is offered last and once; the first chip is page with a URL, note without; note and quote are always offered |
| ShareView.PickedTypeOffered | ios/SFLShareExtension/ShareView.swift:139-180 | the type picked for a URL, by either test, is one of the chips offered |
| ShareView.MetaData | ios/SFLShareExtension/ShareView.swift:543-549 | a meta share's data names this repository as its project and carries the priority and status picked, each key once |
| ShareView.ShareBody | ios/SFLShareExtension/ShareView.swift:539-557 | the body has the picked type and the shared URL; its title is never empty; only a note carries the text as summary, and only a meta idea carries data |
| ShareView.SharedRow | ios/SFLShareExtension/ShareView.swift:535-557 | the Worker stores the picked type, the title (else the URL, else the text, never empty), the URL (or this repository's for a meta share without one) and the text as summary only for a note |
| ShareView.ShareSheet.Appear | ios/SFLShareExtension/ShareView.swift:175-178 | the suggested title and the type for the URL are taken; nothing else changes |
| ShareView.ShareSheet.UrlChanged | ios/SFLShareExtension/ShareView.swift:179-181 | the type is picked again for the new URL; the title is kept |
| ShareView.ShareSheet.SuggestionArrived | ios/SFLShareExtension/ShareView.swift:182-184 | a late suggestion fills only an empty title |
| ShareView.ShareSheet.Save | ios/SFLShareExtension/ShareView.swift:535-577 | the requests are those of the share's save; success shows it saved and keeps it busy, failure shows the error and allows another try |
| IdeasList.RequestFor | ios/SFL/Views/IdeasListView.swift:32-36 | the stored cursor is sent; the type `all` means no type filter and the empty query no search, any other value is sent as is |
| IdeasList.Start | ios/SFL/Views/IdeasListView.swift:20-24 | a reset clears the ideas and the cursor and leaves more to load; without reset the state is kept |
| IdeasList.LoadKeepsListed | ios/SFL/Views/IdeasListView.swift:17-47 | a load without reset only adds ideas after those listed; a reset load lists nothing or exactly a fetched page |
| IdeasList.ExhaustedIsIdle | ios/SFL/Views/IdeasListView.swift:25 | once nothing more is left, a load without reset changes nothing |
| IdeasList.LoadSucceeds | ios/SFL/Views/IdeasListView.swift:26-40 | a load that goes through asks for the page after the stored cursor, appends it and keeps its cursor; there is more exactly when the page has a cursor and no search runs |
| IdeasList.LoadFails | ios/SFL/Views/IdeasListView.swift:41-45 | a load that throws keeps the ideas and cursor, shows the error and leaves more to load |
| IdeasList.MoreLoaded | ios/SFL/Views/IdeasListView.swift:49-52 | nothing happens while loading, when nothing more is left or while a search shows; the list is never shortened |
| IdeasList.RefreshShowsFirstPage | ios/SFL/Views/IdeasListView.swift:54-56 | a refresh that goes through shows exactly the first page, fetched without a cursor |
| IdeasList.NoCursorNoMore | ios/SFL/Views/IdeasListView.swift:39-52 | a page without a cursor ends the list: `loadMore` then does nothing, whatever the Worker would answer |
| IdeasList.SearchIsOnePage | ios/SFL/Views/IdeasListView.swift:40-52 | a search shows one page only, even when it came with a cursor |
| IdeasList.CursorKeepsPaging | ios/SFL/Views/IdeasListView.swift:39-52 | a listing page with a cursor keeps paging: the next `loadMore` asks for the page after that cursor with the same type |
| IdeasList.IdeasListViewModel.Load | ios/SFL/Views/IdeasListView.swift:17-47 | the view model's new state is the load of its old state |
| IdeasList.IdeasListViewModel.LoadMore | ios/SFL/Views/IdeasListView.swift:49-52 | the view model's new state is `loadMore` of its old state |
| IdeasList.IdeasListViewModel.Refresh | ios/SFL/Views/IdeasListView.swift:54-56 | the view model's new state is the refresh of its old state |
| IdeasList.NoteBody | ios/SFL/Views/IdeasListView.swift:395-406 | a body is posted exactly when the trimmed note is not empty |
| IdeasList.NoteRow | ios/SFL/Views/IdeasListView.swift:401-406 | the Worker stores a `note` without url whose summary is the trimmed note, never empty, and whose title is the title as typed unless it is blank |
| IdeasList.QuickNoteSheet.AddExisting | ios/SFL/Views/IdeasListView.swift:369-372 | the tag is appended unless its id is picked; the picked tags stay well-formed |
| IdeasList.QuickNoteSheet.AddNew | ios/SFL/Views/IdeasListView.swift:373-376 | the name is appended under a fresh id unless a picked tag has it, ignoring case; the picked tags stay well-formed |
| IdeasList.QuickNoteSheet.Remove | ios/SFL/Views/IdeasListView.swift:335 | every picked tag with the id is removed; the picked tags stay well-formed |
| IdeasList.QuickNoteSheet.Post | ios/SFL/Views/IdeasListView.swift:398-422 | the requests are those of the whole save; success leaves the sheet busy without error, failure shows the error and allows another try |
| IdeasList.QuickNoteSheet.Save | ios/SFL/Views/IdeasListView.swift:395-423 | a blank note sends nothing and changes nothing; otherwise the note and its tags are posted as the capture save does, success keeping the sheet busy and failure showing the error |

## Left out

- User interface: layout, styling, themes, focus handling and the web front end. The clients are modelled by the state their views hold and the requests they send.
- `generateId` (api/src/lib/nanoid.js) is not part of this model. Ids come from an `IdGen` whose source is a parameter; a collision is the insert's uniqueness error.
- `Date.now` is a parameter, and one handler call uses one `now`.
- `JSON.parse` and `JSON.stringify` are not modelled as text. Bodies arrive as `Option<Json>`, where `None` is a body that does not parse. Numbers are integers only, so floating-point values are not modelled.
- Key order in JSON objects is kept as insertion order. A duplicate key is read from its first binding in the model; `JSON.parse` keeps the last one.
- The full-text `MATCH … ORDER BY rank` of `searchIdeas` is an oracle: a function from the query to the ranked rows or to the error of a malformed query. The model cuts its answer to the clamped limit.
- The HTMLRewriter's tokenising is an event sequence given to `Article`. Which elements match the selectors is part of the event.
- `crypto.subtle.digest` (SHA-256) and `btoa` are parameters of the token exchange. Only the base64url post-processing of `verifyPKCE` is modelled.
- `env.AI.run` is a parameter giving the model's answer text. The rest of `enrichIdea`'s request (prompt wording, model name) is not modelled.
- The approval page's HTML template is reduced to the hidden fields and the error line; its markup and styles are left out.
- The server-side media fetch and the extension's image download are oracles: each gives the reply to one request.
- Concurrency is modelled sequentially: `Promise.all` fan-outs, `waitUntil` background enrichment, Swift `Task` cancellation (a `cancelled` flag) and debouncing.
- Timers (`setTimeout` on badges, `Task.sleep` before closing a sheet), `dismiss()` and closing windows are left out.
- Loading the tag list on appear (`listTags`) is left out. The tag list is an argument of the pickers.
- The URL encoding of query parameters in the Swift `APIClient` is left out. `IdeasList.RequestFor` gives the parameters before encoding.
- URL host parsing (`URL.host`, `new URL(...).hostname`) is a parameter: a shared URL carries its host, and `new URL` validity in the approval is a predicate argument.
- Case folding is ASCII only (`Strings.Lower`). Swift's `localizedCaseInsensitiveContains` and `lowercased()` fold more characters than that.
- Character counts are Unicode scalar counts. Swift's `prefix(120)` counts grapheme clusters, and JavaScript's `slice` counts UTF-16 code units.
- The iOS `IdeaDetail` is decoded without its free-form `data` and `notes`; `displayTitle` is shared with `Idea` (`ClientModels.DisplayTitle`).
- `formattedDate` (relative date formatting) and the emoji and labels of idea types are left out.
- `CaptureForm.Linked`: its own contract bounds the number of requests only. What the loop sends is stated by the lemmas about it (`LinkedAll`, `LinkedCreated`, `CreatedThenLinked`, `LinkedAnswered`).
- `ClientModels.DecodeInt`: Swift's `Int` is 64-bit. The model refuses numbers outside that range and does not model fractional numbers.
- `Capture.RequestStored`: a `meta` request without a URL is excluded by its precondition. `CaptureForm.StoredAsSent` covers that case.
- `IdeasList`: the view model's pages are `ClientModels.IdeasPage`, whose cursor is an integer read from `nextCursor`, matching the view model's `Int?` cursor. The iOS `IdeasResponse` declares a text cursor under `cursor`; that decoder is `IosModels.DecodeIosPage` (see Findings).
- `Strings.IsSpace`, `Strings.Trim`, `Strings.TrimWhitespaceAndNewlines`: whitespace is ASCII plus NBSP. JavaScript's `\s` and `trim()` also strip U+1680, U+2000–U+200A, U+2028, U+2029, U+202F, U+205F, U+3000 and U+FEFF. Swift's `whitespacesAndNewlines` also holds U+0085, U+2028 and U+2029, so the model's trim keeps line breaks that `CaptureView.IsNewline` treats as breaks.
- `Numbers.ToNumber`: only optionally signed decimal integers are read. JavaScript's `Number` also reads hexadecimal, binary and octal prefixes (`0x10`), exponents (`1e2`), fractions and `Infinity`, which the model reads as NaN.
- `ShareView.ShareSheet.Appear`: picks the type with the domain test `ShareView.TypeForUrl`, the corrected half of the Findings row. `onAppear` (ios/SFLShareExtension/ShareView.swift:175-178) calls the substring test `typeForURL` (`ShareView.TypeForUrlAsWritten`), so a `box.com` link is a page here and a tweet in the app.
- `ShareView.ShareSheet.UrlChanged`: the same corrected test as `Appear`, where `onChange` (ios/SFLShareExtension/ShareView.swift:179-181) calls the substring test.
- `Mcp.HandleBatch`: the outcome of a reading tool inside a batch is not tied to the tables at that step. The step does change nothing, and the outcome of a reading tool in a single message is stated by `Mcp.HandleMessage`.
- `Mcp.HandleRequest`: as for `Mcp.HandleBatch`, a reading tool's outcome is stated only for a single message, not inside a batch.
- `Mcp.Step` and `Mcp.HandleOne`: likewise, a reading tool's step is stated to leave the tables as they were, not what it answers.

## Findings

| source | as written | input that shows it | evidently intended | confidence | as-written member | corrected member |
|---|---|---|---|---|---|---|
| ios/SFL/Shared/Models.swift:123-126 | the iOS listing page reads its cursor from the key `cursor`, but the Worker's listing answers `{ideas, nextCursor}` (api/src/db/ideas.js:92); every page decodes with no cursor, so the list never loads a second page | the first page of a listing with more rows, `{"ideas": [], "nextCursor": 5}`: the iOS decoder yields cursor `nil` | read the cursor from `nextCursor`, as the macOS app does (macos/Sources/Models.swift:52-55) | high (not executed) | IosModels.CursorLostExample | MacModels.ListingRoundTrip |
| ios/SFLShareExtension/ShareView.swift:517-531 | `typeForURL` tests the host by substring, so any host containing a site's name counts as that site | a file shared from `https://box.com/`: the host contains `x.com`, so it is typed as a tweet | match a site's domain or its subdomains, so `box.com` is a page and `mobile.x.com` still a post | medium (not executed) | ShareView.BoxAsWritten | ShareView.BoxIntended |
