# Spizer crawl core in Dafny

This project models the crawl core of Spizer, a small PHP web crawler. It
also proves what that core promises.

- **Engine.** An engine holds a frontier queue of pending requests. `run`
  drains the queue one request at a time. It fetches each request, builds a
  document from the response and offers the document to every registered
  handler in registration order.
- **Logger.** The logger receives a fixed bracket of events per page:
  `startPage`, `logRequest`, `logResponse`, the handlers' records, then
  `endPage`.
- **Link appender.** This handler harvests the links of HTML documents. It
  filters them by scheme and host, and resolves host-less links against the
  document URL. It enqueues each URL at most once over its lifetime.
- **String-match handler.** This handler logs the first offset at which a
  configured string occurs in a document's body.

Modules, one per source file:

| module | file | form |
|---|---|---|
| `Php` | PHP value semantics the core relies on (truthiness, `==`, `in_array`, `array_merge`, `strtolower`) | functions |
| `Uris` | the parsed-URI record and the URI library as a bundle of function values | datatypes |
| `Requests` | lib/Spizer/Request.php | class `Request` (the referrer is set in place) |
| `Frontier` | lib/Spizer/Queue.php | class `Queue` over a `seq` of requests |
| `Documents` | lib/Spizer/Document.php, plus the header rule of lib/Spizer/Response.php | functions |
| `StringMatching` | lib/Spizer/Handler/StringMatch.php | functions |
| `LinkAppending` | lib/Spizer/Handler/LinkAppender.php | class `LinkAppender` |
| `Handlers` | lib/Spizer/Handler/Abstract.php | class `Handler`, with the gate as a predicate |
| `Crawl` | lib/Spizer/Engine.php | class `Engine`; the logger is an event trace |

Code outside the core is passed in as values:

- **The URI library.** `UriSyntax` covers `Zend_Uri_Http::check`, `Zend_Uri::factory`, `parse_url` and the validity checks of `setQuery` and `setPath`.
- **The HTTP transport.** A function from a request to a response.
- **Link extraction from HTML markup.** A function from a body to four link lists.

Thrown exceptions are `Error` values. A method that throws returns `Some(error)` and states what it changed before throwing.

The loop of `run` ends when the queue yields nothing. It carries a `budget` bound on the number of pages, so the model needs no non-terminating loop.

## Model

A definition that only computes is cited through the lemmas that state its properties: `Documents.Factory`, `HeaderMap` and `TypeToken` through the `Factory…`, `HeaderMap…` and `TypeToken…` lemmas; `StringMatching.Handle` through `HandleFindsFirstMatch`; `Handlers.Admits` through the filter lemmas; `LinkAppending.Absorb` through the `Absorb…` lemmas; `Crawl.Visit` and `Crawl.Crawl` through `VisitServes`, `CrawlStep` and `CrawlShape`.

| member | source | states |
|---|---|---|
| Php.Get | lib/Spizer/Handler/Abstract.php:100 | a missing option reads as null, a present one as its value |
| Php.Merge | lib/Spizer/Handler/Abstract.php:75 | each option overrides the default of its key, every other default is kept, and the keys are the union |
| Php.LowerChar | lib/Spizer/Request.php:152 | ASCII upper-case letters move down by 32, every other character is unchanged |
| Php.ToLower | lib/Spizer/Request.php:152 | same length, each character folded by `LowerChar` |
| Php.ToLowerIsLowerAndIdempotent | lib/Spizer/Document.php:76 | the folded name is lower-case and folding it again changes nothing |
| Php.ToLowerKeepsLower | lib/Spizer/Response.php:54 | a name that is already lower-case is its own folded form |
| Requests.Request.FromUri | lib/Spizer/Request.php:90-91 | the request keeps the URI and method given, referrer null |
| Requests.Request.New | lib/Spizer/Request.php:79-92 | a string that is not a valid HTTP URL is refused with `InvalidUrl`; a valid one is parsed; a parsed URI is taken without a check; the method is as given (GET by default) and the referrer is null |
| Requests.Request.SetReferrer | lib/Spizer/Request.php:99-112 | the referrer becomes the given string |
| Requests.HeaderLookup | lib/Spizer/Request.php:150-158 | the lookup behind both `getHeader`s (Request.php and Document.php:74-82): the name is lower-cased; present gives the value, absent gives null |
| Requests.RequestHeaderAlwaysAbsent | lib/Spizer/Request.php:139-168 | no request has a header and every body is empty, so every header lookup is null |
| Frontier.Take | lib/Spizer/Queue.php:92-99 | empty gives null and stays empty; otherwise one element is served and exactly one fewer is pending |
| Frontier.TakeIsPermutation | lib/Spizer/Queue.php:92-99 | `next` loses nothing: the served element and the pending ones together are the old elements (multiset) |
| Frontier.Reverse | lib/Spizer/Queue.php:38-40 | the reference order for LIFO: element i is the i-th from the end |
| Frontier.DrainFifoIsAppendOrder | lib/Spizer/Queue.php:34-36 | repeated `next` on a FIFO queue serves exactly the append order |
| Frontier.DrainLifoIsReverseOrder | lib/Spizer/Queue.php:38-40 | repeated `next` on a LIFO queue serves exactly the reverse append order |
| Frontier.Queue.constructor | lib/Spizer/Queue.php:72-75 | the order mode is fixed at construction; the queue starts empty |
| Frontier.Queue.Count | lib/Spizer/Queue.php:82-85 | the number of pending requests |
| Frontier.Queue.Next | lib/Spizer/Queue.php:92-99 | FIFO removes and returns the oldest request, LIFO the newest; empty gives null and changes nothing; the count drops by one exactly when non-empty |
| Frontier.Queue.Append | lib/Spizer/Queue.php:107-114 | a request is added at the end with the pending ones unchanged; a valid string is wrapped in a fresh GET request with no referrer; an invalid string throws and changes nothing |
| Frontier.AppendTwiceKeepsBoth | lib/Spizer/Queue.php:107-114 | the queue does not deduplicate: one URL appended twice is pending twice, as two distinct requests |
| Documents.HeaderMapKeys | lib/Spizer/Response.php:50-59 | the keys of `getAllHeaders` are exactly the lower-cased names of the raw header lines, so every key is lower-case |
| Documents.HeaderMapLastWins | lib/Spizer/Response.php:52-54 | every name, in whatever case it was sent, maps to the value of its last line |
| Documents.SingleHeader | lib/Spizer/Response.php:52-54 | a single header line gives the map from its lower-cased name to its value |
| Documents.TypeTokenIsRun | lib/Spizer/Document.php:104-107 | the type token is a prefix of the value with no `;` or white space that stops at the end or at such a character |
| Documents.TypeTokenIsLongestRun | lib/Spizer/Document.php:105-106 | any prefix with those two properties is the token, so the token is unique |
| Documents.TypeTokenBeforeParameters | lib/Spizer/Document.php:105-106 | a type followed by `;` parameters, or by nothing, has the type as its token |
| Documents.FactoryFollowsTypeTable | lib/Spizer/Document.php:96-130 | URL, status, headers and body are copied from the request and the response; Html exactly for `text/html` and `text/xhtml`; Xml exactly for `text/xml` and `application/xml`; Generic otherwise; an HTML document carries the links of its body |
| Documents.TypeTokenDecidesVariant | lib/Spizer/Document.php:100-126 | a content-type line, in any spelling of its name, holding a type followed by parameters selects the variant by the type alone |
| Documents.HtmlWithParameters | lib/Spizer/Document.php:112-116 | `text/html; charset=...` gives an HTML document |
| Documents.UpperCaseTypeIsGeneric | lib/Spizer/Document.php:112-126 | matching is case-sensitive: `TEXT/HTML` gives a generic document |
| Documents.JsonIsGeneric | lib/Spizer/Document.php:123-125 | a type outside the table gives a generic document |
| Documents.NoContentTypeIsGeneric | lib/Spizer/Document.php:108-110 | no content-type gives a generic document |
| Documents.DocumentHeaderIgnoresCase | lib/Spizer/Document.php:74-82 | a document's `getHeader` gives the same answer for a name and its lower-cased form |
| StringMatching.Configure | lib/Spizer/Handler/StringMatch.php:35-52 | refused with `MissingMatch` exactly when `match` is missing or not a string; otherwise the options merged over `matchcase => false`, and case-sensitive exactly when `matchcase` is given truthy |
| StringMatching.FirstFromIsLeast | lib/Spizer/Handler/StringMatch.php:65 | the search from an offset finds the least offset at or after it where the needle occurs, or none when there is none |
| StringMatching.PositionIsFirst | lib/Spizer/Handler/StringMatch.php:65 | `strpos`: the first occurrence, or false when there is none or the needle is empty |
| StringMatching.HandleFindsFirstMatch | lib/Spizer/Handler/StringMatch.php:60-72 | `handle` logs a record exactly when the needle occurs under the case mode; the record has exactly `message`, `needle` and `offset`; the offset is a match with no match before it |
| StringMatching.HandleReportsFirstMatch | lib/Spizer/Handler/StringMatch.php:65-70 | a match at k with none before it is the record `handle` logs, offset k |
| StringMatching.CaselessMatchIsCharwise | lib/Spizer/Handler/StringMatch.php:62 | `stripos` matches at k exactly when every character agrees after ASCII folding |
| StringMatching.WarningMatchesAtTwo | lib/Spizer/Handler/StringMatch.php:62-65 | `warning` matches `a WARNING...` at offset 2 without matchcase |
| StringMatching.WarningNotBeforeTwo | lib/Spizer/Handler/StringMatch.php:62-65 | and at no earlier offset |
| StringMatching.FindsUpperCaseWarning | lib/Spizer/Handler/StringMatch.php:60-72 | the default case-insensitive handler logs offset 2 for `a WARNING...` |
| StringMatching.CaseSensitiveMissesUpperCase | lib/Spizer/Handler/StringMatch.php:62-65 | with matchcase set, `warning` does not match `WARNING` |
| LinkAppending.Settings | lib/Spizer/Handler/LinkAppender.php:44-52 | the corrected configuration: options over the appender defaults, key by key |
| LinkAppending.AsWrittenSettings | lib/Spizer/Handler/LinkAppender.php:63-79 | as written, `handle` reads the class defaults whatever the options |
| LinkAppending.AsWrittenIgnoresOptions | lib/Spizer/Handler/LinkAppender.php:76-79 | `follow_img => true` takes effect in the corrected model and is lost as written |
| LinkAppending.Remember | lib/Spizer/Handler/LinkAppender.php:68-69 | the document URL becomes seen, without a duplicate; a seen list without duplicates keeps that property |
| LinkAppending.WithDomain | lib/Spizer/Handler/LinkAppender.php:63-65 | with same-domain on and no domain set, the domain becomes the base URI's host; otherwise the configuration is unchanged |
| LinkAppending.WithDomainSetsOnce | lib/Spizer/Handler/LinkAppender.php:63-65 | the setup is done once: a second `handle`, whatever the base URI, leaves the domain alone, and a configured domain is never replaced |
| LinkAppending.SameDomainFixesDomain | lib/Spizer/Handler/LinkAppender.php:63-65 | with same-domain on, a domain is in force after the setup: the base URI's host when none was configured |
| LinkAppending.DefaultsNeedNoDomain | lib/Spizer/Handler/LinkAppender.php:44-52 | the default configuration has same-domain off, so the setup changes nothing |
| LinkAppending.Gathered | lib/Spizer/Handler/LinkAppender.php:75-79 | anchors first when `follow_href` is on; nothing when every flag is off; never more than all four lists |
| LinkAppending.GatheredMembers | lib/Spizer/Handler/LinkAppender.php:75-79 | a link is gathered exactly when it is in one of the enabled collections |
| LinkAppending.GatheredAll | lib/Spizer/Handler/LinkAppender.php:75-79 | with every flag on: anchors, images, header links and scripts, whole and in that order |
| LinkAppending.GatheredImagesOnly | lib/Spizer/Handler/LinkAppender.php:75-79 | with only `follow_img` on: exactly the images |
| LinkAppending.DefaultsFollowAnchors | lib/Spizer/Handler/LinkAppender.php:44-52 | the default configuration follows the anchors and nothing else |
| LinkAppending.LastSlash | lib/Spizer/Handler/LinkAppender.php:110 | `strrpos($p, '/')`: a `/` with none after it, or none at all |
| LinkAppending.LastSlashIsLast | lib/Spizer/Handler/LinkAppender.php:110 | a `/` with none after it is what `LastSlash` finds |
| LinkAppending.MergePath | lib/Spizer/Handler/LinkAppender.php:104-116 | a path starting with `/` replaces the document path, and so does an empty path; any other path is appended after the document path's last `/`, or after `/` when it has none |
| LinkAppending.DropLastSegmentIsPrefixToLastSlash | lib/Spizer/Handler/LinkAppender.php:109-114 | removing the last segment keeps the path up to and including its last `/` |
| LinkAppending.MergeAgreesWithRfc3986 | lib/Spizer/Handler/LinkAppender.php:107-116 | for HTTP base paths the merge equals "Merge Paths" of section 5.2.3 of RFC 3986, with dot segments kept |
| LinkAppending.RelativePathExample | lib/Spizer/Handler/LinkAppender.php:108-115 | `c/d.html` against `/a/b/page.html` gives `/a/b/c/d.html` |
| LinkAppending.AbsolutePathExample | lib/Spizer/Handler/LinkAppender.php:103-105 | `/e.html` replaces the document path |
| LinkAppending.NoSlashBaseExample | lib/Spizer/Handler/LinkAppender.php:110-112 | a document path without `/` resolves as `/` + link |
| LinkAppending.Resolve | lib/Spizer/Handler/LinkAppender.php:97-118 | corrected: the document's scheme, host and port, the merged path, and the link's own query and fragment (none when absent) |
| LinkAppending.AsWrittenResolve | lib/Spizer/Handler/LinkAppender.php:99-101 | as written: the same, except that the document's fragment is kept |
| LinkAppending.AsWrittenKeepsDocumentFragment | lib/Spizer/Handler/LinkAppender.php:101 | a link fragment that differs from the document's is lost as written and kept when corrected |
| LinkAppending.SameDomainExample | lib/Spizer/Handler/LinkAppender.php:91-94 | the domain filter is a suffix test: `sub.example.com` passes `example.com`, `evil.org` does not |
| LinkAppending.UnsetDomainAcceptsAll | lib/Spizer/Handler/LinkAppender.php:92 | an unset domain accepts every host |
| LinkAppending.Refusal | lib/Spizer/Handler/LinkAppender.php:98-116 | the URI library refuses a resolved host-less link for its query first, then for its merged path; a link without a query is never refused for it, since `setQuery(null)` sets none |
| LinkAppending.Classify | lib/Spizer/Handler/LinkAppender.php:82-127 | each if and only if: skipped exactly when unparseable, of another scheme than http/https, with a host the domain filter refuses, or with neither host nor path; a link with an accepted host is a candidate as its raw string; a host-less link with a path is a candidate exactly when the URI library accepts its query and merged path, and then it is the resolved URL; otherwise it is unresolvable, naming the link and the library's reason |
| LinkAppending.Steps | lib/Spizer/Handler/LinkAppender.php:82 | every gathered link classified, in order |
| LinkAppending.Absorb1Facts | lib/Spizer/Handler/LinkAppender.php:136-147 | one link enqueues a candidate exactly when it is new and valid, throws exactly when it is new and invalid (changing nothing), and only unresolvable links make records |
| LinkAppending.AbsorbSingle | lib/Spizer/Handler/LinkAppender.php:82-128 | the loop over one link is one pass |
| LinkAppending.AbsorbSnoc | lib/Spizer/Handler/LinkAppender.php:82-128 | one more link continues from the state the earlier links left |
| LinkAppending.AbsorbStopsAtError | lib/Spizer/Handler/LinkAppender.php:118-126 | an exception that the `catch` does not take ends the loop; later links change nothing |
| LinkAppending.AbsorbEnqueuesOnlyUnseen | lib/Spizer/Handler/LinkAppender.php:140-145 | the seen list grows by exactly the enqueued URLs, none of them seen before, with no duplicates |
| LinkAppending.AbsorbKeepsSeen | lib/Spizer/Handler/LinkAppender.php:145 | nothing seen is ever forgotten |
| LinkAppending.AbsorbSeesEveryCandidate | lib/Spizer/Handler/LinkAppender.php:140-146 | after a loop without exception every candidate is seen |
| LinkAppending.Issue | lib/Spizer/Handler/LinkAppender.php:140-145 | the requests queued for the enqueued URLs: one GET request per URL, in order, each referred by the document URL |
| LinkAppending.HandleSpec | lib/Spizer/Handler/LinkAppender.php:60-129 | `handle` on the appender's state: the domain is set up lazily; a non-HTML document only has its URL remembered, with no records, exception or enqueued URL |
| LinkAppending.HandleSpecDedups | lib/Spizer/Handler/LinkAppender.php:68-69 | across `handle` the seen list keeps no duplicates and grows by exactly the enqueued URLs, none of them seen before or the document URL |
| LinkAppending.OneRelativeLinkEnqueued | lib/Spizer/Handler/LinkAppender.php:82-147 | with the defaults, an HTML page holding one new, valid relative link enqueues exactly that link resolved against the page URL, with no record and no exception |
| LinkAppending.SiblingPageEnqueued | lib/Spizer/Handler/LinkAppender.php:107-116 | on a fresh appender, the link `r` on the page `/p` of a site is enqueued as the site's `/r` (`page2` on `http://a.test/page1` gives `http://a.test/page2`) |
| LinkAppending.LinkAppender.constructor | lib/Spizer/Handler/LinkAppender.php:42-52 | corrected settings, nothing seen, no duplicates |
| LinkAppending.LinkAppender.AddToQueue | lib/Spizer/Handler/LinkAppender.php:136-147 | a new valid URL becomes a fresh GET request at the queue's end, referred by the document, and becomes seen; a seen URL changes nothing; a new invalid URL throws and changes nothing |
| LinkAppending.LinkAppender.Consider | lib/Spizer/Handler/LinkAppender.php:82-127 | one pass of the loop does what `Absorb1` describes, on the queue and the seen list |
| LinkAppending.LinkAppender.AbsorbLinks | lib/Spizer/Handler/LinkAppender.php:82-128 | the loop does what `Absorb` describes: the same seen list, records and exception; the queue grows by fresh requests for exactly the enqueued URLs, in order, each referred by the document |
| LinkAppending.LinkAppender.Handle | lib/Spizer/Handler/LinkAppender.php:60-129 | the domain is set lazily; the document URL becomes seen; a non-HTML document changes nothing else; for HTML the enabled link lists are absorbed in order with the document URL as referrer, and the queue only grows at its end |
| LinkAppending.AsWrittenAddToQueue | lib/Spizer/Handler/LinkAppender.php:136-147 | as written, any new valid URL stops the crawl on the null `engine` property |
| LinkAppending.AsWrittenNeverEnqueues | lib/Spizer/Handler/LinkAppender.php:143 | as written, addToQueue never grows the seen list |
| LinkAppending.AsWrittenFailsWhereIntendedEnqueues | lib/Spizer/Handler/LinkAppender.php:136-147 | for a URL that is new and valid, the corrected pass enqueues it and adds it to the seen list, while the code as written fails with the null-engine error |
| Handlers.TypeValue | lib/Spizer/Handler/Abstract.php:97 | the raw content-type header, or null exactly when it is absent |
| Handlers.TypeValueIsGetHeader | lib/Spizer/Handler/Abstract.php:97 | that is the document's own `getHeader('content-type')` |
| Handlers.FalsyFiltersAdmitAll | lib/Spizer/Handler/Abstract.php:99-114 | with no truthy filter (the defaults) every document is handled |
| Handlers.StatusListAdmitsMembers | lib/Spizer/Handler/Abstract.php:101-102 | a list of codes admits exactly the listed statuses |
| Handlers.StatusCodeAdmitsEqual | lib/Spizer/Handler/Abstract.php:103-105 | a single non-zero code admits exactly that status |
| Handlers.TypeFilterComparesRawHeader | lib/Spizer/Handler/Abstract.php:108-114 | a string filter admits exactly the documents whose raw header equals it |
| Handlers.CharsetParameterIsRejected | lib/Spizer/Handler/Abstract.php:108-114 | a `text/html` filter rejects `text/html; charset=utf-8` |
| Handlers.MissingHeaderIsRejected | lib/Spizer/Handler/Abstract.php:97-113 | a set filter rejects a document without the header, unless it is a list holding a value loosely equal to null |
| Handlers.StringMatchGateIsOpen | lib/Spizer/Handler/StringMatch.php:35-37 | the string matcher's defaults drop the base filters, so its gate is open unless its options set one |
| Handlers.FiledByAppender | lib/Spizer/Handler/LinkAppender.php:122-125 | the appender's records are filed under `LinkAppender`, one per record, in order |
| Handlers.Effect | lib/Spizer/Handler/Abstract.php:94-117 | one `call`: a document the gate refuses changes nothing; every record is filed under the handler's name; the string matcher never throws, keeps no state, enqueues nothing and files at most one record; the appender does what `HandleSpec` describes, its records filed under `LinkAppender` |
| Handlers.Handler.Make | lib/Spizer/Handler/Abstract.php:49-76 | configuration as given, name `DefaultHandler`, no engine |
| Handlers.Handler.NewStringMatch | lib/Spizer/Handler/StringMatch.php:44-52 | refused with `MissingMatch` exactly when `match` is missing or not a string; otherwise a fresh handler with the merged configuration and that matcher |
| Handlers.Handler.NewLinkAppender | lib/Spizer/Handler/Abstract.php:73-76 | the gate reads the options over the base defaults; a fresh appender with the corrected settings and nothing seen |
| Handlers.Handler.SetHandlerName | lib/Spizer/Handler/Abstract.php:125-128 | the name is replaced; the engine binding is kept |
| Handlers.Handler.SetEngine | lib/Spizer/Handler/Abstract.php:83-86 | the engine binding is replaced; the name is kept |
| Handlers.Handler.Call | lib/Spizer/Handler/Abstract.php:94-117 | a document the gate refuses changes nothing; otherwise the string matcher files at most its one record under the handler's name, and the appender does what `LinkAppender.Handle` states; every record is filed under `FiledName` |
| Crawl.Logged | lib/Spizer/Handler/Abstract.php:135-138 | each filed record reaches the logger as a handler event with its name and info unchanged |
| Crawl.ClosePage | lib/Spizer/Engine.php:228 | an opened page followed by `endPage` is a page |
| Crawl.PageIsBracketed | lib/Spizer/Engine.php:202-228 | a page holds exactly one `startPage` and one `endPage` |
| Crawl.PagesAreBalanced | lib/Spizer/Engine.php:201-233 | the crawled pages hold as many starts and ends as there are pages |
| Crawl.Round | lib/Spizer/Engine.php:315-317 | at most one turn per handler, exactly one each when none throws, and a throw is the last turn |
| Crawl.RoundSnoc | lib/Spizer/Engine.php:315-317 | one more handler: its turn, on the appender states the earlier turns left, comes after theirs |
| Crawl.RoundStopsAtError | lib/Spizer/Engine.php:315-317 | an exception ends the foreach: the handlers after it do not run |
| Crawl.RoundFilesUnderNames | lib/Spizer/Engine.php:315-317 | the records of the i-th turn are all filed under the name of the i-th registered handler |
| Crawl.RoundWhenNoneAdmits | lib/Spizer/Engine.php:315-317 | a document no handler admits logs nothing, throws nothing, changes no state and enqueues nothing |
| Crawl.VisitServes | lib/Spizer/Engine.php:202-229 | the page of a request opens with start, that request and the transport's response to it; it is a whole page unless a handler threw, and then an open one; the pending requests stay ahead of the ones the handlers add |
| Crawl.PageVisitorIsSound | lib/Spizer/Engine.php:201-229 | every page the run visits serves its request in that sense |
| Crawl.CrawlStep | lib/Spizer/Engine.php:201-233 | one turn of the loop: the page of the request `next` serves, then the crawl from the queue it leaves, unless a handler threw |
| Crawl.CrawlShape | lib/Spizer/Engine.php:201-233 | at most `budget` pages, each a whole page; a throw leaves one open page; a crawl that ends early without a throw has emptied the queue |
| Crawl.FirstPageServesHead | lib/Spizer/Engine.php:201-203 | the first page logs the request `next` serves first: the oldest pending one, the newest for a LIFO queue |
| Crawl.NoHandlersAreQuiet | lib/Spizer/Engine.php:315-317 | with no handler registered a page throws nothing and enqueues nothing |
| Crawl.CrawlWithoutHandlers | lib/Spizer/Engine.php:201-233 | when nothing is enqueued the crawl visits exactly the pending requests, in the order the queue serves them, each page logging its request |
| Crawl.Engine.constructor | lib/Spizer/Engine.php:103-126 | options override the defaults key by key; the queue is LIFO exactly when `lifo` is truthy (FIFO by default) and empty; no handlers, logger or base URI; the counter is zero |
| Crawl.Engine.SetLogger | lib/Spizer/Engine.php:144-153 | a second logger is refused with `LoggerAlreadySet` and the first kept; otherwise it is stored |
| Crawl.Engine.Log | lib/Spizer/Engine.php:171-178 | without a logger it throws `LoggerNotSet`; otherwise the record is appended to the trace unchanged |
| Crawl.Engine.AddHandler | lib/Spizer/Engine.php:277-282 | the handler is bound to this engine and appended after the others |
| Crawl.Engine.Run | lib/Spizer/Engine.php:185-234 | an invalid seed throws before anything changes; otherwise the seed is the base URI, the default logger is installed only when none is set, and the pages, the open page, the exception, the remaining queue and the appender states are those of `Crawl` from the pending requests followed by a GET request for the seed, with each handler's `call` as its turn; the trace grows by those pages and the counter by their number; each page is start, request, the transport's response, handler records, end; the queue is empty when the loop ends below budget; a handler's exception leaves one open page |
| Crawl.Engine.Seed | lib/Spizer/Engine.php:191-198 | the seed becomes the base URI and is appended as a GET request; the default logger is installed only when none is set |
| Crawl.Engine.Drain | lib/Spizer/Engine.php:201-233 | the pages, the open page, the exception, the remaining queue and the appender states are exactly those of `Crawl` from the queue as it stands, each page that of the request `next` served; the trace grows by those pages and the counter by their number |
| Crawl.Engine.Step | lib/Spizer/Engine.php:201-229 | one `next`: an empty queue ends the loop with nothing changed; otherwise the page of the request served is the first step of `Crawl`, and the rest of the crawl continues from the queue and states it leaves |
| Crawl.Engine.CrawlPage | lib/Spizer/Engine.php:202-229 | the page, exception, new queue and appender states are those `Visit` gives for this request: start, this request, the transport's response to it, the handlers' records, then end and the counter bumped unless a handler threw |
| Crawl.Engine.OpenPage | lib/Spizer/Engine.php:202-222 | `startPage`, `logRequest` and `logResponse` are appended to the trace |
| Crawl.Engine.FinishPage | lib/Spizer/Engine.php:228-229 | `endPage` is appended to the trace and the counter grows by one |
| Crawl.Engine.CallHandlers | lib/Spizer/Engine.php:310-318 | the document is `Factory` of this request and response, and the handlers' turns on it are as `Round` describes: the records logged, the exception, the appender states, and GET requests for the enqueued URLs referred by the document URL |
| Crawl.Engine.Offer | lib/Spizer/Engine.php:315-317 | the foreach does what `Round` describes: each handler's `call` in registration order, on the states the earlier calls left, until one throws; its records logged in order; the queue grows by the requests the calls enqueue |
| Crawl.Engine.OfferTo | lib/Spizer/Engine.php:315-317 | one pass of the foreach: the next handler's `call`, after earlier ones that threw nothing, extends the round exactly as `Round` over one more handler; its records are logged and its requests queued |
| Crawl.Engine.Dispatch | lib/Spizer/Engine.php:316 | one handler's `call`: its records, exception, new appender state and queued requests are those of `Effect`; only its own appender changes, and every appender stays valid |

## Left out

- HTTP transport: the `Zend_Http_Client` setup (`savecookies`, `httpOpts`, `maxredirects`), request sending and `authenticateUrl` are foreign I/O. Fetching is a total function from a request to a response.
- Fetch failure: the branch at lib/Spizer/Engine.php:213-222 only writes to standard error and then uses an undefined or stale response. Fetching is modelled as total, so this branch does not occur.
- Inter-request `delay` (`sleep`) is timing only.
- Document parsing (lib/Spizer/Document/Html.php, lib/Spizer/Document/Xml.php) is not part of this model. An HTML document carries the four link lists a markup function yields for its body.
- The XPath, NotXPath, RegexMatch, Logger and ZendImages handlers, the logger sinks (XML, SQLite), configuration loading and the command line are not part of this model. A logger is its class name plus the trace of events it receives.
- Getters such as `getUri`, `getMethod`, `getReferrer`, `getBody`, `getQueue`, `getBaseUri` and `getRequestCounter` are fields read directly.
- A response header with several values is a single string.
- Crawl.Engine.Run: the loop carries a `budget` on the number of pages. It does not state that a crawl over a finite URL universe ends on its own.
- Crawl.Engine.Dispatch: records go into the trace of the engine that runs the handler. The source sends them through the handler's own engine binding (the last `addHandler`), which is the same engine unless a handler is registered with two engines. The `log` check for a missing logger does not arise there, because `run` installs a logger before the loop.
- Crawl.Engine.Run: the `NullEngine` fatal error of the source as written is shown by `AsWrittenAddToQueue`. It is not propagated through the engine, which uses the corrected appender.
- Documents.Factory: a response with no header lines yields a Generic document with an empty header map. In the source, `getAllHeaders` then returns null (lib/Spizer/Response.php:52-58), and passing that null to the document constructor's `array` parameter is a fatal error that stops the crawl. The model does not stop there.
- Php.LooseEquals: numeric strings are compared as text (`"200" == "200.0"` is false here). Against an integer, the string must be exactly the integer's decimal form. PHP's numeric conversion of the string (`"200.0"`, `" 200"`, `"0200"`, `"2e2"` and, in PHP 5, `"200abc"` all equal `200`) is not modelled. This reaches the status filter of the handler gate when a status is given as a string.
- LinkAppending.HostAccepted: the domain is a plain suffix. The case where preg's `$` matches before a final newline in the host is not modelled.
- LinkAppending.MergePath: on an empty link path PHP 5's `substr_compare` warns and returns false, which compares loosely equal to 0, so the empty path takes the absolute branch and replaces the document path. The warning itself is not modelled.
- Uris.Format: user information (`user:pass@`) is not part of the URI record, so it is dropped from every URL string the model formats, including the seen list and the queued requests.
- StringMatching.Position: a Dafny string stands for a PHP byte string. Offsets count characters, and the case folding of `stripos` is a per-character ASCII lower-casing; multi-byte encodings are not modelled. The same holds for the lower-cased header names of Documents.HeaderMap.
- StringMatching.Position: an empty needle yields false, as PHP 5's `strpos` does.

## Findings

| source | as written | input that shows it | evidently intended | confidence | as-written member | corrected member |
|---|---|---|---|---|---|---|
| lib/Spizer/Handler/LinkAppender.php:44-79 | `handle` reads `$this->config`, the appender's class defaults. The constructor options are merged into `$this->_config` (Abstract.php:75) | options `follow_img => true`: images are still not followed | the options override the appender's defaults | high, not executed | LinkAppending.AsWrittenIgnoresOptions | LinkAppending.Settings |
| lib/Spizer/Handler/LinkAppender.php:143 | `addToQueue` calls `$this->engine->getQueue()`, but the property is `_engine`, so this is a call on null (the same holds at lines 64 and 122) | any HTML document with one new valid link on the same domain | the request is appended to the engine's queue | high, not executed | LinkAppending.AsWrittenAddToQueue | LinkAppending.LinkAppender.AddToQueue |
| lib/Spizer/Handler/LinkAppender.php:101 | `getFragment(...)` instead of `setFragment(...)` | link `b.html#top` on document `http://h/a.html#x`: resolved as `http://h/b.html#x` | the link's own fragment, or none | high, not executed | LinkAppending.AsWrittenKeepsDocumentFragment | LinkAppending.Resolve |
