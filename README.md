# grlink link store, modelled in Dafny

grlink is a personal "link-in-bio" page. Its server keeps a MongoDB collection
of `Link` documents (name, url, icon, color, click counter, manual `order`,
creation time). A REST router lists, creates, reorders and deletes links,
records clicks and computes a click report. The React client sorts the links by
clicks for its charts, searches the preset templates, and edits a link through
a form.

This project models that core and proves its properties:

- `link_model.dfy` (module `LinkModel`): the Mongoose schema. It holds the
  `Link` record, the `Partial<ILink>` payload `LinkFields`, document creation
  with its required paths and defaults (`NewLink`), the update overlay
  (`Overlay`), the click increment and the click sum.
- `link_api.dfy` (module `LinkApi`): the service `LinkApiImpl`, as class
  `LinkStore`. The class holds the collection as `links: map<Id, Link>` and
  an id counter `nextId`. Its methods `GetAll`, `Create`, `Update`, `Delete`
  and `RecordClick` state the whole new collection in terms of the old one.
  The model's collection scan (`Scan`) visits the documents in id order,
  which is insertion order. `sort({ order: 1 })` is a stable insertion sort
  (`SortByOrder`), proved sorted and a permutation.
- `link_routes.dfy` (module `LinkRoutes`): the Express handlers. Each one
  returns its status code and the content of its JSON body. `PUT /order` is a loop of
  single-document updates, specified by `Reordered`. `GET /stats` is the
  `$match` / `$group` pipeline (`MatchStage`, `GroupStage`, `StatsOf`).
- `stats_dashboard.dfy` (module `StatsDashboard`): the in-place array sort
  by clicks, most clicked first (`SortByClicksDesc`, an insertion sort on
  `array<Link>`), and the chart projection.
- `click_stats_chart.dfy` (module `ClickStatsChart`): the same sort followed by
  the top five.
- `add_link_modal.dfy` (modules `AddLinkModal`, `AddLinkModalExample`): the
  template search, a case-insensitive substring test, and the initial form
  data built from a template.
- `link_edit_form.dfy` (module `LinkEditForm`): the form state, its
  per-field updates and the `{...link, ...formData}` merge on submit.
- `wrappers.dfy` (module `Wrappers`): `Option` and `Result`.

Modelling choices:

- Ids are natural numbers drawn from a counter. This stands for ObjectId
  generation. A new document gets an id that no stored document has.
- Timestamps are integers (milliseconds). The current time of `Date.now` is a
  parameter of `create`.
- Mongoose's `required` check on a String path fails when the value is absent
  or the empty string. `NewLink` follows that.
- `findByIdAndUpdate` runs no validators. An update overlays every field its
  payload carries, even an empty name.
- Database and route outcomes are values: `Result<_, StoreError>` for the
  service and `Reply(status, body)` for the routes. The router's fixed
  messages are the constructors of `Message`.

Facts about the routes that the model keeps:

- The router has no `PUT /:id` route. Updates exist only in the service.
- Reordering is one batch request, `PUT /order` with a `linkIds` array.
- The click route is `POST /:id/clicks`. It reads the document, adds one and
  saves it back. It is not an atomic increment.
- The save in the click route validates the document again. A link whose name,
  url, icon or color was set to `""` by an update gets a 400 and keeps its count.
- `DELETE /:id` never reports NotFound, because it ignores the result of
  `findByIdAndDelete`. The service's `delete` does report NotFound.

## Model

| member | source | states |
|---|---|---|
| `LinkModel.NewLink` | src/server/models/Link.ts:3-31 | a new document exists exactly when name, url, icon and color are present and non-empty; it copies them; clicks and order default to 0 and createdAt to the current time when absent |
| `LinkModel.Overlay` | src/server/services/api.ts:21-22 | an update replaces exactly the fields the payload carries and keeps every other field and the id |
| `LinkModel.OverlayNothing` | src/server/services/api.ts:21-22 | an update with the empty payload leaves the document unchanged |
| `LinkModel.OverlayFields` | src/server/services/api.ts:21-22 | the updated document's fields are the stored fields merged with the payload, the payload winning |
| `LinkModel.OverlayTwice` | src/server/services/api.ts:21-22 | two updates in a row equal one update with the merged payload |
| `LinkModel.NewLinkFields` | src/server/models/Link.ts:20-31 | a created document's fields are the schema defaults overridden by the payload |
| `LinkModel.CreateThenUpdate` | src/server/services/api.ts:16-22 | create then update gives the defaults overridden by the first payload, then by the second, under the id assigned at creation |
| `LinkModel.NewLinkSavable` | src/server/models/Link.ts:3-31 | every created document passes the required-path validation of a later save |
| `LinkModel.Clicked` | src/server/services/api.ts:41 | clicks goes up by exactly one and no other field changes, so validation of the save is not affected |
| `LinkModel.SumClicks` | src/server/routes/links.ts:85 | the `$sum` of non-negative click counts is non-negative, and of non-positive ones non-positive |
| `LinkModel.SumClicksAppend` | src/server/routes/links.ts:85 | the click sum of a concatenation is the sum of the parts |
| `LinkModel.SumClicksPermutation` | src/client/components/StatsDashboard.tsx:33 | reordering documents does not change their total clicks |
| `LinkApi.Scan` | src/server/services/api.ts:13 | a scan returns only stored documents below the bound, in strictly increasing id order, and every stored document below the bound |
| `LinkApi.IncreasingIdsOnce` | src/server/services/api.ts:13 | documents in strictly increasing id order occur once each |
| `LinkApi.ScanLists` | src/server/services/api.ts:13 | a scan lists each stored document exactly once, and only stored documents |
| `LinkApi.InsertByOrder` | src/server/services/api.ts:13 | inserting into an order-sorted list keeps it sorted and adds exactly that document |
| `LinkApi.SortByOrder` | src/server/services/api.ts:13 | the sort result has non-decreasing order and is a permutation of its input |
| `LinkApi.LinkStore.Documents` | src/server/routes/links.ts:81 | the documents a collection scan returns are exactly the stored ones, each once |
| `LinkApi.LinkStore.GetAll` | src/server/services/api.ts:12-14 | returns every stored link exactly once, in non-decreasing order |
| `LinkApi.LinkStore.Create` | src/server/services/api.ts:16-19 | with valid fields, adds exactly one document under a fresh id and leaves the others unchanged; otherwise fails with Invalid and changes nothing |
| `LinkApi.LinkStore.Update` | src/server/services/api.ts:21-27 | for a stored id, overlays the payload on that document only and returns it; for an unknown id, fails with NotFound and changes nothing |
| `LinkApi.LinkStore.Delete` | src/server/services/api.ts:29-34 | removes that one document; succeeds exactly when the id was stored, and fails with NotFound otherwise |
| `LinkApi.LinkStore.RecordClick` | src/server/services/api.ts:36-43 | for a stored id whose document passes validation, that link's clicks go up by one and nothing else changes; a document that fails validation gives Invalid and nothing changes; an unknown id gives NotFound and nothing changes |
| `LinkApi.DeleteTwice` | src/server/services/api.ts:29-34 | a second delete of the same id always fails with NotFound |
| `LinkRoutes.LastIndex` | src/server/routes/links.ts:31-35 | the position of the last occurrence of an id: the write to that document that lands last |
| `LinkRoutes.ReorderedStep` | src/server/routes/links.ts:32-33 | one more `{ order: i }` update extends the batch result by that single write; an id with no document is skipped |
| `LinkRoutes.Reordered` | src/server/routes/links.ts:31-35 | the batch keeps the set of documents and changes nothing but order; unlisted links are unchanged; a listed link's order is a position of its id in the list, with no later one |
| `LinkRoutes.ReorderedDistinct` | src/server/routes/links.ts:32-33 | with distinct ids, the link whose id is `linkIds[i]` ends with order i |
| `LinkRoutes.InWindow` | src/server/routes/links.ts:73-78 | without both bounds every document passes; with both, exactly those with startDate <= createdAt <= endDate, both ends included, so a reversed window passes nothing |
| `LinkRoutes.MatchStage` | src/server/routes/links.ts:73-81 | a document is matched exactly when it is scanned and in the window, as many times as it is scanned |
| `LinkRoutes.GroupStage` | src/server/routes/links.ts:82-95 | at most one group, none exactly when nothing matched; the group's total is the click sum of the matched documents and of its entries, one entry per matched document |
| `LinkRoutes.PushEntries` | src/server/routes/links.ts:86-93 | one `{name, clicks, color, icon}` entry per matched document, in order |
| `LinkRoutes.StatsOf` | src/server/routes/links.ts:80-98 | totalClicks is the sum of clicks over the matched documents and links has one projected entry per matched document, the empty case included |
| `LinkRoutes.PushEntriesSum` | src/server/routes/links.ts:85-93 | the entries carry exactly the clicks that are summed |
| `LinkRoutes.StatsTotalIsSumOfEntries` | src/server/routes/links.ts:83-95 | the reported total equals the sum of the reported entries' clicks |
| `LinkRoutes.MatchedStoreDocuments` | src/server/routes/links.ts:73-95 | over a scan of the store, each stored link in the window is matched exactly once and no other document is; the report has an entry exactly for those links |
| `LinkRoutes.StatsEmpty` | src/server/routes/links.ts:98 | the report is `{ totalClicks: 0, links: [] }` exactly when nothing matched |
| `LinkRoutes.UnboundedMatchesAll` | src/server/routes/links.ts:73-78 | without both bounds every document is matched |
| `LinkRoutes.ListLinks` | src/server/routes/links.ts:7-14 | status 200 with every link exactly once, in non-decreasing order |
| `LinkRoutes.CreateLink` | src/server/routes/links.ts:17-25 | status 201 with the one new document when the required fields are valid; otherwise 400 and the collection is unchanged |
| `LinkRoutes.ReorderLinks` | src/server/routes/links.ts:28-40 | without a linkIds array, 400 and nothing changes; otherwise 200 and the collection is the batch result |
| `LinkRoutes.DeleteLink` | src/server/routes/links.ts:43-50 | always status 200, whether or not the id existed; that document is gone |
| `LinkRoutes.RecordLinkClick` | src/server/routes/links.ts:53-65 | unknown id: 404 and nothing changes; a document that fails validation on save: 400 and nothing changes; otherwise 200 with that link's clicks up by one and nothing else changed |
| `LinkRoutes.GetStats` | src/server/routes/links.ts:68-98 | status 200 with the report over the scanned documents; each stored link in the window is matched exactly once and gives one entry, no other link is matched, and the total is their click sum and the sum of the entries |
| `LinkRoutes.GitHubScenario` | src/server/routes/links.ts:17-98 | on a fresh collection, a created GitHub link has 0 clicks and order 0; after three clicks the report is `{3, [{GitHub, 3, #333, gh}]}` |
| `StatsDashboard.ChartData` | src/client/components/StatsDashboard.tsx:34-38 | one `{name, clicks, color}` entry per link, same length, same order |
| `StatsDashboard.ChartDataSum` | src/client/components/StatsDashboard.tsx:34-38 | the projection keeps the total clicks |
| `StatsDashboard.ChartDataNonIncreasing` | src/client/components/StatsDashboard.tsx:33-38 | projecting links sorted by clicks gives non-increasing entries |
| `StatsDashboard.SwapWithPrevious` | src/client/components/StatsDashboard.tsx:33 | one exchange of neighbours in the array leaves the other elements and the multiset unchanged |
| `StatsDashboard.InsertAt` | src/client/components/StatsDashboard.tsx:33 | moving one link into place extends the sorted prefix by one, keeps the multiset and leaves the suffix alone |
| `StatsDashboard.SortByClicksDesc` | src/client/components/StatsDashboard.tsx:33 | the array is reordered in place, clicks non-increasing, and stays a permutation of its old contents |
| `StatsDashboard.DashboardData` | src/client/components/StatsDashboard.tsx:32-38 | the links prop is sorted in place; the data has non-increasing clicks, one projected entry per link, and the same click total as the input |
| `ClickStatsChart.TopData` | src/client/components/ClickStatsChart.tsx:25-30 | min(5, n) entries, entry i projecting link i |
| `ClickStatsChart.TopDataIsTop` | src/client/components/ClickStatsChart.tsx:23-30 | over sorted links, the shown entries do not increase and no omitted link has more clicks than the last one shown |
| `ClickStatsChart.TopLinksData` | src/client/components/ClickStatsChart.tsx:23-30 | the links prop is sorted in place; the data has min(5, n) non-increasing entries from distinct leading links, and every omitted link has at most the smallest shown clicks |
| `AddLinkModal.ToLower` | src/client/components/AddLinkModal.tsx:27 | lower-casing keeps the length and lower-cases each character |
| `AddLinkModal.Includes` | src/client/components/AddLinkModal.tsx:27 | a query longer than the name is never included; the empty query and every prefix of the name are |
| `AddLinkModal.IncludesIff` | src/client/components/AddLinkModal.tsx:27 | `includes` holds exactly when the query occurs at some position of the name |
| `AddLinkModal.FilterTemplates` | src/client/components/AddLinkModal.tsx:26-28 | a template is kept exactly when its lower-cased name includes the lower-cased query, as many times as it occurs among the templates |
| `AddLinkModal.FilterIsSubsequence` | src/client/components/AddLinkModal.tsx:26 | the filtered templates are an order-preserving subsequence of the templates |
| `AddLinkModal.EmptyQueryKeepsAll` | src/client/components/AddLinkModal.tsx:26-28 | an empty query keeps every template |
| `AddLinkModal.SearchIgnoresCase` | src/client/components/AddLinkModal.tsx:27 | queries that differ only in letter case give the same result |
| `AddLinkModal.InitialData` | src/client/components/AddLinkModal.tsx:95-100 | url is the template's prefix when it has one and `""` otherwise; name, icon and color are copied |
| `AddLinkModalExample.SearchExample` | src/client/components/AddLinkModal.tsx:26-28 | over GitHub, TikTok and Email, the query "GITHUB" selects only GitHub |
| `LinkEditForm.InitialForm` | src/client/components/LinkEditForm.tsx:22-27 | the form starts as the link's name, url, icon and color |
| `LinkEditForm.SetName` | src/client/components/LinkEditForm.tsx:48 | replaces the name and no other field |
| `LinkEditForm.SetUrl` | src/client/components/LinkEditForm.tsx:60 | replaces the url and no other field |
| `LinkEditForm.SetIcon` | src/client/components/LinkEditForm.tsx:72 | replaces the icon and no other field |
| `LinkEditForm.SetColor` | src/client/components/LinkEditForm.tsx:84 | replaces the color and no other field |
| `LinkEditForm.Submit` | src/client/components/LinkEditForm.tsx:30-36 | the submitted record carries exactly the form's four fields and keeps the link's id, clicks, order and createdAt |
| `LinkEditForm.SubmitIsOverlay` | src/client/components/LinkEditForm.tsx:32-35 | the submit merge is the server's update with the four form fields as payload |
| `LinkEditForm.SubmitUnedited` | src/client/components/LinkEditForm.tsx:22-35 | submitting with no edits gives back the original link |
| `LinkEditForm.SubmitOneEdit` | src/client/components/LinkEditForm.tsx:46-86 | editing one input and submitting changes that field of the link only |

## Left out

- Express wiring, server start-up and the MongoDB connection (src/server/index.ts is not part of this model). These are I/O.
- Storage failures and the `500` replies of `GET /` and `GET /stats` are not modelled. The in-memory collection never fails.
- Concurrency is not modelled. `PUT /order` issues its updates through `Promise.all`; the model applies them one at a time, in list order, so the last write wins for a repeated id. `recordClick` does a non-atomic read-modify-write; the model runs it sequentially, so the lost-update race cannot be expressed.
- Malformed ids are not modelled. An id string that is not an ObjectId makes Mongoose throw a CastError (400 in the routes, and a partial batch in `PUT /order`); the model's ids are always well formed.
- Value casting in payloads is not modelled (a non-numeric `clicks`, say). Payloads are typed.
- Keys outside the schema, and a caller-supplied `_id`, are not modelled. The model's payload type has no such keys.
- Parsing of the ISO date query strings is not modelled. Dates are integers, and an absent or empty query parameter is `None`.
- Pie-chart percentages, chart rendering, CSS, resize listeners, i18n and modal callbacks are left out: presentation and floating point.
- The client HTTP wrappers, pages, LinkPreview and the full template list are left out as glue or constant data. Three templates are transcribed for one search example.
- Numbers are modelled as unbounded integers. In the source, `clicks`, `order` and the dates are JavaScript doubles. The model has no fractional values, and it does not lose precision above 2^53, where `clicks += 1` would stop changing the count.
- Two keys of the JSON bodies are not modelled. The stats document has the group key `_id: null`. Link documents carry Mongoose's version key `__v`.
- Full Unicode `toLowerCase` is left out. Lower-casing is the ASCII case fold.
- The prop mismatch between AddLinkModal (`initialData`) and LinkEditForm (`link`) is not modelled. Each component is modelled on its own.
- StatsDashboard.SortByClicksDesc: does not state that the sort is stable. `Array.prototype.sort` is stable, but no property here needs a fixed order for links with equal clicks.
- The order of a collection scan is not promised by MongoDB. The model scans in id order, so the entry order of the `GET /stats` report, and the order `GET /` gives to links with equal `order`, follow that choice.
- LinkApi.LinkStore.GetAll: the order among links with equal `order` is left unspecified. MongoDB does not promise one; the model happens to keep insertion order.
