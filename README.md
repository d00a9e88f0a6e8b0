# element-hunter core, in Dafny

element-hunter is a browser-extension backend and web dashboard. The extension scrapes a page
and posts an SEO scan: meta tags, content, images, links, headings and e-mails. The dashboard
does three things with scans:

- it lists them, hiding test scans;
- it scores each one and counts its issues;
- it lets the user file scans into folders.

This project models the part of that system that computes or stores something, and proves
what it promises:

- **`SeoUtils`** (`lib/seo-utils.ts`). The SEO score is a sum of fixed weights over fourteen
  presence signals, capped at 100. The issue count adds one per negative condition, for up to
  four. Each is specified as a rule table (`SignalAt`, `Weight`, `Present`; `Fires`). Each is
  also written as the source's chain of `if`s on a local accumulator (`CalculateSeoScore`,
  `GetIssues`), and the methods are proved equal to the tables.
- **`ScanData`** (`types/scan.ts`). The scan payload, every field optional, widened to the
  shapes the code actually reads:
  - `meta.keywords` is a string or a list;
  - a link side is a list or a count.

  `View` is the `as ScanData` cast, reading a JSON tree into that shape. `ToJson` writes it
  back, and `ViewToJson` proves that the cast loses nothing on well-shaped payloads.
- **`Js`**. The JavaScript semantics the code relies on:
  - truthiness (`""` and `0` are falsy, `[]` is truthy);
  - `typeof` (`typeof null` is `"object"`);
  - property reads that throw on `null`/`undefined`, and exceptions as a `Completion`;
  - `toLowerCase`, `includes`, `trim`, and `split` on one character.
- **`ScanList`** (`components/scans/scan-list.tsx`). The logic embedded in the scan list:
  - unwrapping a payload nested under `data`;
  - the "test" filter, including the `TypeError` a `{data: null}` payload raises;
  - link and e-mail counts;
  - the three score colours;
  - the keyword badges.
- **`Store`**. The Prisma tables as in-memory tables in a `Database` class:
  - users;
  - scans;
  - folders;
  - memberships, a set of (folder, scan) pairs.

  It has the four writes the routes perform, and an invariant `Valid` that every write keeps:
  unique ids, and foreign keys that resolve.
- **`Queries`**. `where` as a filter and `orderBy` as a sort by a total preorder, with their
  multiset and order contracts, and the order on names.
- **`Http`**. The request, session and response shapes the handlers share.
- **One module per route**:
  - `AddScanRoute` and `RemoveScanRoute` (folder membership);
  - `FoldersRoute` and `CreateFolderRoute` (the two folder-creation variants, which differ in
    trimming);
  - `SeoRoute` (scan ingestion and listing);
  - `ScansRoute` (the projected listing);
  - `ScansPage` (the two queries of the scans page).

Handlers that write are module-level methods that take the `Database` as a parameter, with
`modifies` on it. Each one states, for every
outcome, the response and the new contents of every table. Read-only handlers are functions.

Some things the code does are easy to miss, and the model states them:

- Neither the add-scan route nor the remove-scan route checks who owns the folder or the scans.
- Removing a pair that is not there is an error, not a silent success.
- The creation route the create-folder button calls stores a blank name untrimmed
  (`BlankNameAcceptedHereOnly`).
- A `meta.keywords` list, which is the declared type, earns the keyword points but makes the
  badge code throw, since a list has no `split` (`DeclaredKeywordListThrows`).

## Model

| member | source | states |
|---|---|---|
| SeoUtils.CalculateSeoScore | lib/seo-utils.ts:3-36 | the accumulated score equals the rule-table score `SeoScore`: the capped sum of the weights of the present signals |
| SeoUtils.AddMetaPoints | lib/seo-utils.ts:5-11 | adds exactly the awards of title (15), description (15), keywords (10), Open Graph tags (10) and Twitter tags (10) |
| SeoUtils.AddContentPoints | lib/seo-utils.ts:12-17 | adds exactly the awards of paragraphs (10), content keywords (10), emphasized (5) and strong (5) |
| SeoUtils.AddOtherPoints | lib/seo-utils.ts:18-34 | adds exactly the awards of charset (2), language (2), images (3), internal links (2) and external links (1) |
| SeoUtils.RankIsPosition | lib/seo-utils.ts:5-34 | every signal has one position in the rule table, in source order |
| SeoUtils.SideNonEmptyMeans | lib/seo-utils.ts:21-34 | a link side counts exactly when it is a non-empty list or a count above zero |
| SeoUtils.PointsAsSum | lib/seo-utils.ts:4-34 | the table's points are the sum of the fourteen awards |
| SeoUtils.WeightsSumTo100 | lib/seo-utils.ts:5-34 | the fourteen weights add up to exactly 100 |
| SeoUtils.PointsAtMostWeights | lib/seo-utils.ts:4-34 | the points of the first k signals never exceed their weights |
| SeoUtils.ScoreWithinBounds | lib/seo-utils.ts:3-35 | the score lies in [0, 100], and the `Math.min` cap never binds |
| SeoUtils.PointsNonePresent | lib/seo-utils.ts:4-34 | with no signal present, no points are awarded |
| SeoUtils.PointsAllPresent | lib/seo-utils.ts:4-34 | with every signal present, every weight is awarded |
| SeoUtils.EmptyPayload | lib/seo-utils.ts:3-51 | the empty payload scores 0 and has exactly 3 issues: title, description and internal links, but not images |
| SeoUtils.CompletePayload | lib/seo-utils.ts:3-51 | every signal present and an alt text on every image: score 100 and no issue |
| SeoUtils.PointsDifference | lib/seo-utils.ts:4-34 | payloads that differ in one signal differ in partial points by that signal's award alone |
| SeoUtils.ScoreDifference | lib/seo-utils.ts:3-35 | signals are independent: changing one signal changes the score by exactly its award |
| SeoUtils.KeywordsEarnTen | lib/seo-utils.ts:7 | `meta.keywords` adds 10 exactly when truthy: any non-empty string, and any list, even an empty one |
| SeoUtils.OgTagsNeedAKey | lib/seo-utils.ts:8-9 | Open Graph tags add 10 exactly when they have at least one key |
| SeoUtils.TwitterTagsNeedAKey | lib/seo-utils.ts:10-11 | Twitter tags add 10 exactly when they have at least one key |
| SeoUtils.LinkSidesEarnPoints | lib/seo-utils.ts:21-34 | internal links add 2 and external links add 1, exactly when the side is a non-empty list or a count above 0 |
| SeoUtils.GetIssues | lib/seo-utils.ts:38-51 | the accumulated count equals the rule-table count `IssueCount` |
| SeoUtils.WithoutAlt | lib/seo-utils.ts:42 | every image kept is one of the images and has a falsy `alt`; none is kept exactly when every image has an alt |
| SeoUtils.IssuesAsSum | lib/seo-utils.ts:39-49 | the table's count is the sum of the four conditions |
| SeoUtils.IssueCountIsSum | lib/seo-utils.ts:38-51 | each condition adds at most one, so the count lies in [0, 4] |
| SeoUtils.ImageIssueNeedsAnImage | lib/seo-utils.ts:42 | the image issue fires exactly when `images` is present and has an image with a falsy alt; absent or empty images never fire it |
| SeoUtils.TextPointsIffNoIssue | lib/seo-utils.ts:5-41 | title and description each earn their points exactly when they raise no issue |
| SeoUtils.InternalPointsIffNoIssue | lib/seo-utils.ts:21-49 | for a list or a non-negative count, the internal-link points are awarded exactly when the internal-links issue does not fire; a negative count does neither |
| ScanData.View | components/scans/scan-list.tsx:69-70 | the `as ScanData` read: a field is present exactly when the payload holds a value of the shape's type there, and every list keeps its length |
| ScanData.ViewToJson | types/scan.ts:13-44 | reading the JSON of a payload of the declared shape gives that payload back |
| Js.Truthy | components/scans/scan-list.tsx:58 | the falsy values are exactly `undefined`, `null`, `false`, `0` and `""`; every array and object is truthy |
| Js.Lower | components/scans/scan-list.tsx:60-61 | same length; each upper-case ASCII letter becomes its lower-case counterpart, every other character is kept, and no upper-case ASCII letter remains |
| Js.Includes | components/scans/scan-list.tsx:60-61 | the empty needle is in every string, a prefix is found, and a needle longer than the string is not |
| Js.Split | components/scans/scan-list.tsx:178 | at least one piece, none longer than the string |
| Js.TrimKeepsUnpadded | app/api/seo/folders/route.ts:23 | a non-empty string is its own trim exactly when it neither starts nor ends with white space |
| Js.Member | components/scans/scan-list.tsx:60 | reading a property throws exactly when the value is `null` or `undefined` |
| Js.TypeOf | components/scans/scan-list.tsx:57-58 | `typeof` is "object" exactly for `null`, arrays and objects, and "undefined" exactly for a missing value |
| Js.TypeOfString | app/api/seo/folders/route.ts:17 | `typeof v === "string"` holds exactly for strings |
| Js.IncludesIffOccurs | components/scans/scan-list.tsx:60-61 | `includes` finds the needle exactly when it occurs at some position |
| Js.Trim | components/scans/scan-list.tsx:186 | the trimmed string is the input with white space removed at both ends, and neither of its ends is white space |
| Js.TrimEmptyIffAllSpace | app/api/seo/folders/route.ts:17 | trimming gives the empty string exactly when the input is all white space |
| Js.SplitCount | components/scans/scan-list.tsx:189 | split on `,` gives one piece more than there are commas |
| Js.SplitPiecesHaveNoSeparator | components/scans/scan-list.tsx:177-178 | no piece of the split contains the separator |
| Js.JoinSplit | components/scans/scan-list.tsx:177-178 | joining the pieces with the separator gives the string back |
| ScanList.Unwrap | components/scans/scan-list.tsx:56-58 | the nested `raw.data` is used exactly when `raw` is an object whose `data` has `typeof` "object" (null, array or object); otherwise `raw` |
| ScanList.Raw | components/scans/scan-list.tsx:56-57 | only parsing a stored string can throw; any other stored value is used as it is |
| ScanList.Payload | components/scans/scan-list.tsx:56-58 | throws exactly when reading the raw value throws; otherwise the unwrapped raw value |
| ScanList.Keep | components/scans/scan-list.tsx:55-62 | throws exactly when the payload cannot be read, is null, or has a title that is neither nullish nor a string; otherwise keeps the scan exactly when neither its title nor its url mentions "test" |
| ScanList.VisibleScans | components/scans/scan-list.tsx:54-63 | a completed filter holds no more scans than the list, and only scans of it |
| ScanList.KeepScan | components/scans/scan-list.tsx:59-62 | throws exactly on a null payload or a title that is neither nullish nor a string; otherwise keeps the scan exactly when neither the lower-cased title nor the lower-cased url contains "test" (a missing title does not) |
| ScanList.VisibleScansCompletes | components/scans/scan-list.tsx:55-63 | the filter completes exactly when the callback completes on every scan |
| ScanList.VisibleScansKeeps | components/scans/scan-list.tsx:55-63 | the result holds exactly the scans the callback keeps, each as many times as in the list, in their original order |
| ScanList.VisibleScansFailsFirst | components/scans/scan-list.tsx:55-63 | a failing filter has a scan on which the callback throws |
| ScanList.VisiblePayloadsNotNull | components/scans/scan-list.tsx:55-67 | every scan that survives the filter has a non-null payload, so the second read of lines 65-67 succeeds |
| ScanList.NullNestedPayloadThrows | components/scans/scan-list.tsx:58-60 | `{data: null}` unwraps to `null`, and the filter callback then throws |
| ScanList.SideCount | components/scans/scan-list.tsx:78-83 | an absent side counts 0 and a list a non-negative length; the count is positive exactly when the score awards the side's points |
| ScanList.CountLinks | components/scans/scan-list.tsx:71-86 | no `links` gives three zeros; a numeric `total` gives that total and zero sides; otherwise each side counts by its list length or its number, and links is their sum |
| ScanList.InternalCountAgreesWithScore | components/scans/scan-list.tsx:78-80 | without `total`, the internal count is positive exactly when the score awards the internal-link points, and for a non-negative count it is 0 exactly when the issue fires |
| ScanList.EmailCount | components/scans/scan-list.tsx:87 | `emails.length` for a list (or a string), and 0 when emails are absent or null |
| ScanList.EmailCountOfDeclared | components/scans/scan-list.tsx:87 | on a payload of the declared shape, the count is the number of addresses |
| ScanList.ScoreColor | components/scans/scan-list.tsx:100-104 | success exactly at 80 and above, warning exactly from 60 to 79, destructive exactly below 60 |
| ScanList.ColorBandsPartition | components/scans/scan-list.tsx:100-104 | every score gets one of three distinct colours |
| ScanList.ColorOfEmptyAndComplete | components/scans/scan-list.tsx:100-104 | an empty payload is shown destructive, a complete one success |
| ScanList.KeywordBadges | components/scans/scan-list.tsx:170-191 | nothing exactly when the keywords are falsy; a TypeError exactly when they are truthy and not a string; otherwise the first min(3, n) comma pieces trimmed, with n = commas + 1, and a "+(n−3)" badge exactly when n > 3 |
| ScanList.BadgesHaveNoComma | components/scans/scan-list.tsx:177-186 | at most three badges are shown, and none contains a comma |
| ScanList.SingleKeyword | components/scans/scan-list.tsx:177-191 | a non-empty keyword string without a comma shows one trimmed badge and no "+N" |
| ScanList.DeclaredKeywordListThrows | components/scans/scan-list.tsx:170-178 | a keyword list of the declared type `string[]` earns the keyword points, but the badge code throws on it |
| ScanList.EmptyKeywordStringShowsNothing | components/scans/scan-list.tsx:170 | an empty keyword string shows no badge and earns no keyword points |
| Queries.Filter | app/api/seo/route.ts:64-67 | `where`: the rows satisfying the condition, each with its multiplicity, and no other |
| Queries.InsertPermutes | app/api/seo/route.ts:68-70 | inserting adds exactly that row to the multiset of rows |
| Queries.InsertSorted | app/api/seo/route.ts:68-70 | inserting into a sorted list keeps it sorted |
| Queries.SortBy | app/api/seo/route.ts:68-70 | `orderBy`: a permutation of the rows, sorted by the order |
| Queries.StrLeTotal | app/scans/page.tsx:24 | any two names are ordered one way or the other |
| Queries.StrLeTransitive | app/scans/page.tsx:24 | the name order is transitive |
| Queries.StrLeAntisymmetric | app/scans/page.tsx:24 | two names tie only when they are equal |
| Store.NewestFirstIsPreorder | app/api/seo/route.ts:68-70 | creation time descending is a total preorder |
| Store.ByNameIsPreorder | app/scans/page.tsx:22-25 | name ascending is a total preorder |
| Store.ScansOf | app/api/seo/route.ts:64-71 | exactly the user's scans, each once per row, newest first |
| Store.Database.HasUser | app/api/seo/route.ts:22-28 | the user is found exactly when it is in the table; in a valid database an unknown user owns no scan and no folder |
| Store.Database.CreateScan | app/api/seo/route.ts:31-37 | succeeds exactly for a fresh id and an existing owner; appends the scan and changes nothing else; keeps `Valid` |
| Store.Database.CreateFolder | app/api/seo/folders/route.ts:21-26 | succeeds exactly for a fresh id and an existing owner; appends the folder and changes nothing else; keeps `Valid` |
| Store.Database.CreateMemberships | app/api/seo/folders/add-scan/route.ts:41-47 | succeeds exactly when every pair names an existing folder and scan; adds the pairs, skipping ones already there, and changes nothing else |
| Store.Database.DeleteMembership | app/api/seo/folders/remove-scan/route.ts:17-24 | succeeds exactly when the pair is present; removes exactly that pair and changes nothing else |
| Http.Origin | app/api/seo/folders/add-scan/route.ts:49 | the `origin` header when present and not empty, else `http://localhost:3000`; never empty |
| AddScanRoute.StringsOf | app/api/seo/folders/add-scan/route.ts:18-21 | keeps exactly the string elements, and no more entries than the array has |
| AddScanRoute.StringsOfConcat | app/api/seo/folders/add-scan/route.ts:18-21 | the filter commutes with concatenation, so the kept strings stay in order |
| AddScanRoute.StringsOfAllStrings | app/api/seo/folders/add-scan/route.ts:18-21 | an array made only of strings is kept whole, in order |
| AddScanRoute.IsJsonRequest | app/api/seo/folders/add-scan/route.ts:13-14 | the body is read as JSON exactly when a `content-type` header is present and contains `application/json` somewhere |
| AddScanRoute.JsonScanIds | app/api/seo/folders/add-scan/route.ts:18-24 | an array `scanIds` gives exactly its string elements; otherwise at most one id, exactly a string `scanId` |
| AddScanRoute.TargetOf | app/api/seo/folders/add-scan/route.ts:10-31 | throws exactly when the JSON body does not parse or is `null` (JSON request) or the form does not parse; a JSON folder is the body's `folderId` and the JSON scans are `JsonScanIds` of the body; a form names at most one scan and its folder as a string |
| AddScanRoute.ReadTarget | app/api/seo/folders/add-scan/route.ts:10-31 | the reassigned `folderId` and `scanIds` equal what the request names (`TargetOf`), including the exceptions of an unparsable or `null` body |
| AddScanRoute.JsonScanIdsChoice | app/api/seo/folders/add-scan/route.ts:18-24 | an array `scanIds` decides the scans; a string `scanId` is used, as a singleton, only when `scanIds` is not an array |
| AddScanRoute.FormScanIds | app/api/seo/folders/add-scan/route.ts:26-31 | a form names one scan exactly when its `scanId` is present and not empty, and none otherwise |
| AddScanRoute.Accepted | app/api/seo/folders/add-scan/route.ts:33 | an accepted request names a folder and at least one scan; for a string folder, exactly when it is not empty and a scan is named |
| AddScanRoute.PairsOf | app/api/seo/folders/add-scan/route.ts:42-45 | one pair per scan id, each naming the folder |
| AddScanRoute.PairsExist | app/api/seo/folders/add-scan/route.ts:41-47 | every pair resolves exactly when the folder and every scan exist |
| AddScanRoute.AddMemberships | app/api/seo/folders/add-scan/route.ts:41-47 | the new table is the old one together with the folder paired with each scan id |
| AddScanRoute.AddMembershipsProperties | app/api/seo/folders/add-scan/route.ts:41-47 | existing pairs are kept, every added pair names the folder, and adding the same scans again changes nothing |
| AddScanRoute.Post | app/api/seo/folders/add-scan/route.ts:6-51 | no session: redirect to /login; an exception: error; no folder or no scan: 400; otherwise the pairs are added, with no ownership check, and the route redirects to `<origin>/scans/folders`, or errors with the table unchanged when a folder or scan does not exist; only memberships change |
| RemoveScanRoute.PairOf | app/api/seo/folders/remove-scan/route.ts:9-16 | a pair exactly when both form fields are present and not empty |
| RemoveScanRoute.Post | app/api/seo/folders/remove-scan/route.ts:6-27 | no session: redirect to /login; a missing field: 400; otherwise exactly that pair is removed, with no ownership check, and the route redirects, or errors when the pair was not there; only memberships change |
| FoldersRoute.NameOf | app/api/seo/folders/route.ts:14-15 | throws exactly on an unparsable or `null` body; otherwise the body's `name` |
| FoldersRoute.ValidName | app/api/seo/folders/route.ts:17 | an accepted name is a non-empty string whose trim is not empty |
| FoldersRoute.ValidNameMeans | app/api/seo/folders/route.ts:17-19 | a name is accepted exactly when it is a string with a character that is not white space |
| FoldersRoute.StoredNameIsTrimmed | app/api/seo/folders/route.ts:21-24 | the stored `name.trim()` is never empty and has no white space at either end |
| FoldersRoute.Post | app/api/seo/folders/route.ts:6-33 | no session: 401; an exception: 500; an invalid name: 400; otherwise the folder with the trimmed name, owned by the caller, is appended and returned, or a 500 with the table unchanged; only folders change |
| FoldersRoute.SameNameTwice | app/api/seo/folders/route.ts:21-26 | names are not unique: the same request twice stores two folders with the same name and distinct ids |
| CreateFolderRoute.Post | app/api/seo/folders/create/route.ts:5-28 | no session: 401; an exception: 500; a falsy name: 400; otherwise the untrimmed name is stored in one new folder owned by the caller, with a 201, or a 500 with the table unchanged |
| CreateFolderRoute.BlankNameAcceptedHereOnly | app/api/seo/folders/create/route.ts:13-19 | a non-empty all-white-space name passes this route's check, but not the trimming route's |
| CreateFolderRoute.RoutesAgreeOnOtherNames | app/api/seo/folders/create/route.ts:13-19 | on other strings both routes accept the name, and the name this route stores equals the trimming route's exactly when it neither starts nor ends with white space |
| SeoRoute.DataOf | app/api/seo/route.ts:15 | `data` has every key of the body except `url`, with the same values |
| SeoRoute.DataAndUrlMakeTheBody | app/api/seo/route.ts:15 | putting `url` back into `data` gives the body again |
| SeoRoute.UrlOf | app/api/seo/route.ts:14-15 | throws exactly on an unparsable or `null` body; otherwise the body's `url` |
| SeoRoute.UrlComesFromAnObject | app/api/seo/route.ts:15-19 | a truthy `url` can only come from an object body with a `url` key |
| SeoRoute.Post | app/api/seo/route.ts:6-55 | no session: 401; an exception: 500; a falsy url: 400; an unknown user: 404; otherwise the scan, with `url` apart from `data` and owned by the caller, is appended and returned, or a 500 with the table unchanged; only scans change |
| SeoRoute.Get | app/api/seo/route.ts:57-73 | 401 exactly without a session; otherwise exactly the caller's scans, as a permutation of the filtered table, newest first |
| ScansRoute.Summaries | app/api/seo/scans/route.ts:14-18 | one summary per scan, in order, with its id, url and creation time, and no payload |
| ScansRoute.Get | app/api/seo/scans/route.ts:6-20 | a 401 with an empty list exactly without a session; otherwise a summary of every scan of the caller and of no other scan, one entry per scan (as many as the caller has), newest first |
| ScansPage.Load | app/scans/page.tsx:15-47 | no session: redirect to /login; otherwise exactly the caller's folders, sorted by name, and exactly the caller's scans in the selected folder (if any), each once (the multiset of the filtered table), newest first |
| ScansPage.Listed | app/scans/page.tsx:29-37 | a listed scan is the caller's; without a truthy `folder` every scan of the caller is listed; with one, exactly the caller's scans with a membership row in that folder |
| ScansPage.NoFolderNoRestriction | app/scans/page.tsx:31-37 | an absent or empty `folder` parameter lists exactly the caller's scans |
| ScansPage.FolderRestricts | app/scans/page.tsx:31-37 | with a folder selected, every listed scan is the caller's and in that folder |

## Left out

- Numbers are integers: floating point, `NaN` and infinities in payloads are not modelled.
- ScanData.View: a JSON field whose type the widened shape does not allow is read as absent. A
  list element of the wrong type keeps its place, with its fields absent. The cast does nothing
  at run time, so the source carries the raw value on. The score and the issue count then
  differ, and the issue count can throw; the next two lines list how.
- SeoUtils.CalculateSeoScore: it reads the payload through `View`, so a truthy field of a type
  outside the widened shape earns nothing. The source awards points for these:
  - `meta.title`, `meta.description`, `meta.keywords`, `basic.charset` or `basic.language`
    that is truthy but not a string (or list, for keywords);
  - a non-empty array or string under `ogTags` or `twitterTags` (through `Object.keys`);
  - a non-empty string under `images` or a content list (through `length`);
  - a link side such as `"5"` or `true`, which compares above 0.

  Its three helper methods, `AddMetaPoints`, `AddContentPoints` and `AddOtherPoints`, split the
  one function into groups of signals so that each proof stays small.
- SeoUtils.GetIssues: it reads the payload through `View` and never throws. The source throws a
  `TypeError` in two cases, and the exception aborts the `.map` of the scan list:
  - `images` is truthy but not an array (`"x"`, `{}` or `5` has no `filter`);
  - `images` holds a `null` element (reading `img.alt`).

  The model reads the first as no images and the second as an image without `alt`. It also
  counts an issue where the source does not in three cases:
  - a truthy non-string title or description;
  - an image whose `alt` is truthy but not a string;
  - a truthy `links.internal` that is neither a list nor a number.
- ScanList.CountLinks: it reads the payload through `View`. A link side that is truthy but
  neither a list nor a number counts as 0. The source keeps the raw value and combines the two
  sides by `+`: concatenated for a string or an object, 1 for `true`.
- ScanList.EmailCount: an object under `emails` that has its own `length` key counts 0 here.
- `JSON.parse` of a string payload is a function parameter `parse`, which may throw.
- `new URL(...).hostname` in `getDomainName` is not modelled, nor is `formatDistanceToNow`.
- `toLowerCase` lowers ASCII letters only. Lengths count characters, not UTF-16 code units.
- Sessions: next-auth is not modelled. The session is an optional user id.
- The database:
  - Prisma's engine, transactions and error types are not modelled; a failed write is an
    `Error` outcome.
  - The foreign keys (scan and folder to user, membership to folder and scan) are assumed,
    because the schema is not part of this model.
  - Ids and creation times are parameters (`freshId`, `now`).
- Concurrency between requests and async scheduling are not modelled.
- `NextResponse.redirect("/login")` is modelled as the location `/login`. The framework's URL
  resolution is not modelled.
- Response status codes are implicit in the `Response` constructors, except `Ok`, which
  carries its own. Error bodies are reduced to a message; the `details` field of the 500
  bodies in `app/api/seo/route.ts` is not modelled.
- Sorting yields some permutation sorted by the order. The order of rows with equal creation
  times is not fixed, and names are ordered by character code rather than by the database's
  collation.
- ScansPage.Load: the `include` of each scan's folders is not modelled, and the `folder`
  search parameter is a single optional string.
- The delete-folder route (`components/delete-folder-button.tsx:25` calls it) is not part of
  this model.
- Rendering and React state, the dashboard and folder pages, the keyword bar chart and the
  token scripts are not part of this model.
