# Press desk, opportunity scan and crawler shaping — a Dafny model

This project models the three pieces of behaviour in a portfolio site for a
digital-solutions consultancy:

- **The AI press desk** (`App.tsx`). A query box sends a free-text inquiry to
  a generative-answer service. It then shows the reply, or a fixed
  placeholder when the reply is empty. Under the reply it lists the citation
  links from the reply's grounding metadata, deduplicated by uri the way a
  JavaScript `Map` does it: the order of first appearance, with the title of
  the last occurrence. A blank query, or a submission while one is pending,
  does nothing. A fault shows a fixed wire-down message. The same file holds
  the site's theme decision and the split of the owner's name into first
  and last names.
- **The opportunity-scan widget** (`components/AICrawlerDemo.tsx`). A sector
  and a location are posted to a scan endpoint. The returned opportunities
  are listed with a count notification, or an error line is shown. Each card
  applies three display rules: a title fallback, hostname-or-raw for the
  source, and a deadline line only when there is a deadline.
- **The crawler service** (`backend/services/crawler_service.py`). It crawls one
  randomly chosen tender portal and shapes the crawled items into opportunity
  records. When the crawl yields nothing or fails, it falls back to
  sector-specific mock records.

The two panels are classes whose methods update their fields the way the
React state setters do. Each async handler becomes two steps: the
synchronous part up to the `await`, and a `Complete` method that takes the
outcome of the external call. The crawler's loops are methods proved equal
to specification functions, and the properties are lemmas about those
functions. Python and JavaScript values are one `Json.Value` type, with each
language's own truth test: Python treats `[]` and `{}` as false, JavaScript
treats them as true.

Three behaviours of the code are worth stating plainly:

- Citations keep the **last** title for a repeated uri, at the position of the
  uri's first appearance, because they are deduplicated through a `Map`
  built from the links in order (App.tsx:123).
- The scan handler itself has no guard and no location validation
  (AICrawlerDemo.tsx:28-32). The button, disabled while loading, is the only
  protection against overlapping scans (AICrawlerDemo.tsx:75,
  `ScanPanel.Panel.Press`). The success notice names the location the
  handler captured at click time, even if the field is edited during the
  scan (AICrawlerDemo.tsx:39,44).
- The press desk has no separate error field. The wire-down message is
  stored as the reply (App.tsx:128).

Files: `wrappers.dfy` (Option), `json.dfy` (values, truth tests, `or`, `.get`),
`text.dfy` (decimal numerals, ASCII lower-casing, prefixes, JavaScript `trim`),
`opportunities.dfy` (the shared record), `press_desk.dfy`, `theme.dfy`,
`masthead.dfy`, `scan_panel.dfy`, `crawler_service.dfy`, `end_to_end.dfy`
(what a card shows for a record the service produced).

## Model

| member | source | states |
|---|---|---|
| `PressDesk.InquiryPanel.constructor` | App.tsx:45-48 | empty query, no reply, not loading, no citations |
| `PressDesk.InquiryPanel.Edit` | App.tsx:416 | typing sets the query only, even while a request is pending |
| `PressDesk.InquiryPanel.Submit` | App.tsx:74-81 | a request goes out iff the query is not blank and nothing is loading; a refused submission changes nothing; an accepted one sets loading and clears reply and citations, keeping the panel invariant |
| `PressDesk.InquiryPanel.Complete` | App.tsx:108-131 | loading always ends; a reply stores its text (or the placeholder) and its deduplicated citations, or none when the metadata path is absent; a fault stores exactly the wire-down message with no citations |
| `Text.Trim` | App.tsx:76 | `query.trim()`: a contiguous part of the query that neither starts nor ends with white space, with only white space removed before and after it |
| `Text.IsBlank` | App.tsx:76 | `!query.trim()`: blank exactly when every character is white space |
| `Text.BlankIffAllSpace` | App.tsx:76 | `!query.trim()` holds exactly when every character is ECMAScript white space or a line terminator |
| `PressDesk.ReplyText` | App.tsx:112 | the stored reply is never empty: the returned text, or exactly the no-comment placeholder when that is empty |
| `PressDesk.ToLink` | App.tsx:119-122 | a missing or empty title becomes "Verified Editorial Resource", a missing uri ""; the title is never empty |
| `PressDesk.Citations` | App.tsx:117-122 | no more citations than chunks, none with an empty title |
| `PressDesk.CitationsAppend` | App.tsx:117-122 | extraction works chunk by chunk and keeps chunk order |
| `PressDesk.CitationsComplete` | App.tsx:118 | every chunk with a web entry contributes its citation |
| `PressDesk.CitationsSound` | App.tsx:118 | every citation comes from a chunk with a web entry |
| `PressDesk.CitationsEmptyIff` | App.tsx:115-122 | there are no citations exactly when no chunk has a web entry |
| `PressDesk.Put` | App.tsx:123 | `Map.set` by uri: an existing uri keeps its position and takes the new citation; a new uri goes last; uris stay unique |
| `PressDesk.UniqueByUri` | App.tsx:123 | no two kept citations share a uri |
| `PressDesk.UniqueByUriKeys` | App.tsx:123 | the kept uris are exactly the input uris |
| `PressDesk.UniqueByUriLastWins` | App.tsx:123 | each kept citation is the last input citation with its uri |
| `PressDesk.UniqueByUriFirstOrder` | App.tsx:123 | kept citations are ordered by the first appearance of their uri |
| `PressDesk.LaterTitleWinsExample` | App.tsx:123 | `[{a,X},{a,Y}]` gives exactly `[{a,Y}]` |
| `PressDesk.ReplyLinks` | App.tsx:115-125 | the citations a reply produces, with unique uris; none when the chunk list is absent |
| `Theme.StoredValue` | App.tsx:62-70 | the stored value is always 'dark' or 'light', and 'dark' exactly in dark mode |
| `Theme.InitialDark` | App.tsx:54-57 | a saved 'dark' gives dark mode; with nothing saved (no entry or an empty one) the mode is the system preference; any other saved value, 'light' included, keeps light mode whatever the system prefers |
| `Theme.StoredValueRestores` | App.tsx:54-70 | the stored value restores the same mode on the next visit |
| `Theme.Toggle` | App.tsx:72 | toggling flips the mode |
| `Theme.ToggleTwice` | App.tsx:72 | toggling twice restores the mode and the stored value |
| `Masthead.Split` | App.tsx:134 | `split(' ')` gives at least one part, none containing a space; a name without spaces is its own single part |
| `Masthead.SplitJoin` | App.tsx:134-136 | joining the parts of a split with single spaces gives back the name |
| `Masthead.Join` | App.tsx:136 | `join(sep)` starts with the first part, and a single part joins to itself |
| `Masthead.FirstName` | App.tsx:135 | the first name is a space-free prefix of the name, and the whole name when it has no space |
| `Masthead.LastName` | App.tsx:136 | the last name is empty when the name has no space |
| `Masthead.NameParts` | App.tsx:134-136 | the first name has no space; with a space, first + " " + last equals the name; without one, the last name is "" |
| `ScanPanel.Panel.constructor` | components/AICrawlerDemo.tsx:21-26 | sector 'construction', location 'Addis Ababa', no results, no error, no notification, not loading |
| `ScanPanel.Panel.SelectSector` | components/AICrawlerDemo.tsx:61 | changes the sector only |
| `ScanPanel.Panel.EditLocation` | components/AICrawlerDemo.tsx:71 | changes the location only, even during a scan |
| `ScanPanel.Panel.Scan` | components/AICrawlerDemo.tsx:28-40 | unguarded and unvalidated: sets loading, clears error, notification and results, posts the current sector and location and records that request as the pending one |
| `ScanPanel.Panel.Press` | components/AICrawlerDemo.tsx:75 | the disabled button: while loading nothing changes and nothing is posted; otherwise a scan starts |
| `ScanPanel.Panel.Complete` | components/AICrawlerDemo.tsx:39-52 | completes exactly the pending request; success sets the results verbatim and the notice with their count and the location captured when the scan started, whatever the field holds now; `success=false` sets the response's error or the fallback with no results; a fault sets exactly the connection message; loading ends, and exactly one of error and notification is set |
| `ScanPanel.SuccessNotice` | components/AICrawlerDemo.tsx:44 | the notice starts with the success prefix and ends with the location followed by "." |
| `ScanPanel.SuccessNoticeMentions` | components/AICrawlerDemo.tsx:44 | the notice's numeral reads back as the count and it names the submitted location |
| `Text.NatToString` | components/AICrawlerDemo.tsx:44 | the count renders as a non-empty decimal numeral without a leading zero |
| `Text.DecimalRoundTrip` | components/AICrawlerDemo.tsx:44 | reading the rendered numeral back gives the count |
| `ScanPanel.ErrorMessage` | components/AICrawlerDemo.tsx:46 | the response's error when it is non-empty, otherwise exactly "Failed to fetch opportunities" |
| `ScanPanel.CardTitle` | components/AICrawlerDemo.tsx:107 | a falsy title shows "Untitled Opportunity"; a truthy one shows itself |
| `ScanPanel.Hostname` | components/AICrawlerDemo.tsx:111 | the simplified hostname contains none of '/', '?', '#' or ':' |
| `ScanPanel.SourceLabel` | components/AICrawlerDemo.tsx:111 | a source not starting with "http" shows unchanged; one that does shows a hostname without '/' |
| `ScanPanel.HttpsSourceShowsHost` | components/AICrawlerDemo.tsx:111 | an https source shows exactly the host between "https://" and the first delimiter |
| `ScanPanel.HttpsExample` | components/AICrawlerDemo.tsx:111 | "https://tenders.et/x" shows "tenders.et" |
| `ScanPanel.RawSourceExample` | components/AICrawlerDemo.tsx:111 | "Ministry Portal" shows unchanged |
| `ScanPanel.DeadlineLine` | components/AICrawlerDemo.tsx:114-116 | the deadline line appears exactly when `deadline_date` is truthy, and shows that value |
| `ScanPanel.CardFor` | components/AICrawlerDemo.tsx:105-117 | a card always has a truthy heading and links to the raw source |
| `Json.PyTruthy` | backend/services/crawler_service.py:253-260 | Python's truth test behind `not` and `or`: None, False, 0, "", [] and {} are false |
| `Json.JsTruthy` | components/AICrawlerDemo.tsx:107-114 | JavaScript's truth test behind the title fallback and the deadline guard: null, false, 0 and "" are false, every array and object is true |
| `Json.Get` | backend/services/crawler_service.py:257-269 | `dict.get(key)`: the stored value, or None when the key is absent |
| `CrawlerService.ItemReadable` | backend/services/crawler_service.py:256-259 | the item and its `data` support `.get`: a dict whose `data`, when present, is a dict; otherwise Python raises |
| `CrawlerService.ItemData` | backend/services/crawler_service.py:257 | `item.get('data', {})` |
| `CrawlerService.Titled` | backend/services/crawler_service.py:259-261 | the item is kept exactly when its title or tender title is truthy |
| `CrawlerService.RecordTitle` | backend/services/crawler_service.py:259 | `title` when truthy, otherwise `tender_title` |
| `Json.PyOr` | backend/services/crawler_service.py:267-269 | Python `or`: one of the operands, truthy iff either is, the first when it is truthy |
| `CrawlerService.Shape` | backend/services/crawler_service.py:263-271 | the record has the given source, the preferred title, and exactly three details, each the first truthy of its two keys |
| `CrawlerService.Shaped` | backend/services/crawler_service.py:256-271 | never longer than the input; every record has the given source and a truthy title |
| `CrawlerService.ProcessedResults` | backend/services/crawler_service.py:250-272 | falsy data gives []; truthy data that is not a list raises; a list raises exactly when some item is not readable as a dict; every record has the given source and a truthy title |
| `CrawlerService.ProcessResults` | backend/services/crawler_service.py:250-272 | the loop returns exactly `ProcessedResults`, raising where Python raises |
| `CrawlerService.ShapedAppend` | backend/services/crawler_service.py:256-271 | shaping is item by item and keeps input order |
| `CrawlerService.ShapedSingle` | backend/services/crawler_service.py:258-263 | one item gives its record exactly when it has a truthy title or tender title |
| `CrawlerService.ShapedKeepsTitled` | backend/services/crawler_service.py:256-263 | every titled item's record is in the output |
| `CrawlerService.ShapedNoneTitled` | backend/services/crawler_service.py:259-261 | items without a truthy title are dropped: none titled gives [] |
| `Text.AsciiLower` | backend/services/crawler_service.py:115 | `sector.lower()` on ASCII: same length, each character lowered, no capital left |
| `CrawlerService.SectorKey` | backend/services/crawler_service.py:115 | None or "" becomes 'general'; otherwise the lower-cased sector |
| `CrawlerService.LocationOr` | backend/services/crawler_service.py:121 | `location or default` |
| `CrawlerService.PyStr` | backend/services/crawler_service.py:240 | the f-string rendering of the sector: the string itself, or "None" |
| `CrawlerService.Mock` | backend/services/crawler_service.py:119-247 | a mock record has the given title and source and exactly the details issuing_authority, deadline_date and budget_etb |
| `CrawlerService.SectorMocks` | backend/services/crawler_service.py:118-235 | exactly the four mocked sectors have mocks, three records each |
| `CrawlerService.GeneralMock` | backend/services/crawler_service.py:238-248 | the general record names the sector as given, is sourced from the procurement agency and carries the three fixed details |
| `CrawlerService.FallbackData` | backend/services/crawler_service.py:110-248 | a mocked sector yields three records; any other key, 'general' included, the one general record naming the sector as given |
| `CrawlerService.ConstructionMockNamesLocation` | backend/services/crawler_service.py:121 | the first construction title embeds the location, or 'Addis Ababa' |
| `CrawlerService.TechnologyMockNamesLocation` | backend/services/crawler_service.py:150 | the first technology title embeds the location, or 'Head Office' |
| `CrawlerService.FallbackIgnoresCase` | backend/services/crawler_service.py:115 | a mocked sector matches in any ASCII letter case |
| `CrawlerService.Gathered` | backend/services/crawler_service.py:81-97 | a crawl that raises or returns no data contributes nothing; crawled data contributes exactly what `ProcessedResults` gives, or nothing when processing raises; every record has the url as source and a truthy title |
| `CrawlerService.Harvest` | backend/services/crawler_service.py:80-97 | the aggregate holds only records sourced from one of the crawled urls, each with a truthy title |
| `CrawlerService.FindTendersResult` | backend/services/crawler_service.py:44-108 | never empty; without a crawler exactly the key-missing record |
| `CrawlerService.FindTenders` | backend/services/crawler_service.py:44-108 | the method returns exactly `FindTendersResult` for the drawn target |
| `CrawlerService.FindTendersSkipsFailingCrawl` | backend/services/crawler_service.py:81-102 | a target whose crawl raises, returns no data, or whose data makes processing raise is skipped, and the result is the fallback |
| `CrawlerService.FindTendersLiveOrFallback` | backend/services/crawler_service.py:95-108 | live records are returned as crawled, all sourced from the target; a raising schema step or an empty aggregate gives the fallback |
| `EndToEnd.CrawledCardsShowTitle` | components/AICrawlerDemo.tsx:107 | a crawled record's card shows its own title and links to the crawled url |
| `EndToEnd.CrawledDeadlineShown` | components/AICrawlerDemo.tsx:114 | a crawled record shows a deadline iff its item had a truthy deadline key, or the second key held `[]`/`{}` (false in Python, true in JavaScript) |
| `EndToEnd.ApiKeyMissingCard` | backend/services/crawler_service.py:46-47 | the key-missing record shows its title, the raw source "System" and no deadline |

## Left out

- The generative-answer SDK call and its prompt wording (App.tsx:83-110) are a foreign library. They become the abstract `PressDesk.Outcome`: a reply with its text and optional chunks, or a fault.
- `fetch` and `response.json()` (components/AICrawlerDemo.tsx:36-41) are network I/O. They become `ScanPanel.ScanOutcome`: a parsed body or a fault.
- `ScanPanel.Panel.Complete` requires a scan in flight and completes the request recorded as pending. Overlapping scans are not modelled. They arise only if the handler runs while loading, which the disabled button prevents.
- A `success: true` body without an `opportunities` array is not modelled, because the response type declares the field.
- `ScanPanel.Hostname` is simplified: the text after the first "//" up to '/', '?', '#' or ':'. It models none of the WHATWG URL Standard's basic URL parser (section 4.4): no lower-casing, userinfo, IDNA or percent-decoding, and it does not throw as `new URL` does for a source like "http-portal".
- `CrawlerService.SectorKey` lower-cases ASCII letters only, where Python's `str.lower` maps all of Unicode. The written keys are ASCII and no non-ASCII character lower-cases to one of their letters, so matching the four sectors is unaffected.
- `localStorage`, `matchMedia` and the document's `dark` class (App.tsx:54-70) are browser side effects. Only the theme decision and the stored value are modelled.
- The date line (App.tsx:137-142) and the mock deadline dates (`datetime.now() + timedelta`) depend on the clock. The mock deadlines come from a `stamp(days)` parameter.
- The crawling client's construction and its `generate_schema` and `crawl` calls are a foreign service. They become `crawlerAvailable`, `schemaRaises` and an arbitrary `crawl` function of the url. The search prompt built from the sector (lines 71-73) is folded into that arbitrary function.
- `random.choice` (crawler_service.py:58-63) becomes the `choice` index parameter.
- The unused `prompt` string (crawler_service.py:49-54) and all logging and `console.error` calls have no effect on results.
- React rendering is not modelled. That covers markup, batching of state updates, how non-string titles or a numeric `0` deadline render, and writes after unmount.
- The scheduler (threads and daily timing), the JSON file persistence in `backend/models/opportunity.py`, and the Flask route and app wiring are not part of this model.
