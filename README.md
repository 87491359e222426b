# InstagramSpider core, modelled in Dafny

The model covers the sequential core of the InstagramSpider scraper, in four parts.

**Query engine** (`Queries`, from `query.py`)
- A `Query` object owns a parser class and a session with a proxies dict.
- `query_batch` sends one GraphQL request. It sends the same request again while the reply is "not ready". It then hands the settled reply to the parser class with the request's variables.
- `query_all` follows the end cursor from page to page, with an optional cap on the number of records.
- The endpoint is an `Origin` object. It answers the n-th GET with the n-th element of a finite list of replies and keeps a log of the requests it was sent. Once that list is used up, every further GET raises.

**Page parsers** (`Parsers`, from `parser.py`)
- `PostParser`, `CommentParser` and `TagPostParser` read a decoded JSON document (`Json`).
- Each subscript that can raise is a partial function returning `Option`.
- The loop in `parse_data` is a method. `get_info`, `parse_next_variables` and `parse_page_info` are functions.

**Downloader** (`Downloads`, from `downloader.py`)
- The local disk is a `FileSystem` object holding a map of files and a set of directories. `_download_item` and `download` change it in place.
- The network is a function from a URL to a response.
- `download` runs its items one after another and builds the result map from their results.

**Task layer** (`Tasks`, from `instagram.py`)
- The two fetch tasks query the posts, then collect the comments of each post, tagged with the post's short code. The author task collects comments without a cap; the tag task caps them at 100 per post.
- The download task checks the data path, derives one `Resource` per sheet row whose URL cell is not empty, and downloads them. Its own `overwrite` argument is not passed on, so existing files are always kept. The code discards the derived resources and the download's result map; the model returns both so that its contract can state them.

Behaviours that follow from the code as written and are modelled so:
- In `_download_item`, an output path without a directory part makes `os.makedirs('')` raise `FileNotFoundError` before any fetch. That includes every default name made by `_split_name`.
- `_download_item` decides success from the first character of the decimal status code.
- `query_all` does not test page 0 against the cap. Every later page is appended whole before the cap test.
- A cap of `None` and a cap of 0 both mean "no cap".

## Model

| member | source | states |
|---|---|---|
| Py.MapAllSpec | instagram/parser.py:45-49 | a loop that appends `f(x)` for each element yields one result per element, in order, and fails exactly when some element fails |
| Text.BeforeFirst | instagram/downloader.py:37 | `s.split(c)[0]` is a prefix of `s` without `c`, ending at the first `c` or at the end |
| Text.AfterLast | instagram/downloader.py:37 | `s.split(c)[-1]` is a suffix of `s` without `c`, starting right after the last `c` or at the start |
| Text.Head | instagram/downloader.py:54 | the head of `os.path.split` is a prefix of the path; it is empty exactly when the path has no '/' |
| Text.SplitExt | instagram/instagram.py:191 | `os.path.splitext`: root + ext is the path; the extension is empty or starts with the last '.' of the final component, has no other '.' and no '/', and is not made of leading dots |
| Text.JoinWith | instagram/instagram.py:205 | `sep.join(parts)`: the parts with the separator between neighbours |
| Text.PathJoin | instagram/instagram.py:206 | `os.path.join` ends with the second part, an absolute second part replaces the first, and a relative one is appended after the first part, which the result then starts with |
| Text.DirOf | instagram/instagram.py:206 | the directory a path names, as `os.path.split` reports it for a file inside: trailing slashes removed unless it is the root |
| Text.HeadOfJoined | instagram/instagram.py:206 | `os.path.split(os.path.join(a, name))[0]` is DirOf(a) for a bare name: the joined path names a file directly in `a` |
| Json.Sub | instagram/parser.py:43 | a field subscript succeeds exactly on a dict that has the key, and yields its value |
| Json.Lookup | instagram/parser.py:43 | a chain of subscripts on decoded JSON; None where a subscript would raise (KeyError, IndexError or TypeError); its one-step law is Json.LookupThen |
| Json.Truthy | instagram/query.py:81 | Python truthiness of a decoded JSON value: null, false, 0, "", [] and {} are false |
| Json.LookupThen | instagram/parser.py:53 | extending a subscript chain by one key subscripts the chain's result |
| Parsers.PostInfo | instagram/parser.py:64-75 | `PostParser.get_info`: the post record of a node, or None when a subscript or the time formatting raises; stated by Parsers.PostInfoDefined and Parsers.PostInfoFields |
| Parsers.CommentInfo | instagram/parser.py:109-118 | `CommentParser.get_info`: the comment record of a node, or None when a subscript or the time formatting raises; stated by Parsers.CommentInfoFields |
| Parsers.Visited | instagram/parser.py:46 | what `for edge in edges` yields: the elements of a list, nothing for an empty dict or string, and None for any other value, whose iteration or first `edge['node']` raises |
| Parsers.EdgeInfo | instagram/parser.py:47 | `get_info(edge['node'])` for one edge, None when the edge has no node or get_info raises; stated by Parsers.ParsedDataPerEdge |
| Parsers.DecodeEdges | instagram/parser.py:45-49 | the loop's records, one per edge in order, or None when an edge fails; stated by Parsers.ParsedDataPerEdge and Py.MapAllSpec |
| Parsers.ParsedData | instagram/parser.py:42-49 | `parse_data`: the records of every edge, or None where the post parsers raise; the comment parser's try/except (parser.py:83-94) turns any failure into []; stated by Parsers.ParsedDataFailures and Parsers.ParsedDataPerEdge |
| Parsers.PostRecord | instagram/parser.py:66-75 | the post dict literal has exactly the eight output keys, each bound to its argument |
| Parsers.PostInfoDefined | instagram/parser.py:64-75 | a post record exists exactly when every source field exists and the timestamp formats |
| Parsers.PostInfoFields | instagram/parser.py:64-75 | a post record has exactly the eight output fields, each copied from its source field (short_code from shortcode, text from the first caption edge, and so on) |
| Parsers.CommentInfoFields | instagram/parser.py:109-118 | a comment record exists exactly when its source fields do; username comes from owner.username and likes_count from edge_liked_by.count |
| Parsers.ParsedDataFailures | instagram/parser.py:83-94 | the comment parser's parse_data never raises; the post and tag-post parsers' raise exactly when finding, iterating or decoding the edges fails, where the comment parser returns [] |
| Parsers.ParsedDataPerEdge | instagram/parser.py:42-49 | when every edge decodes, parse_data returns one record per edge, in edge order, each the get_info of the edge's node |
| Parsers.ParseData | instagram/parser.py:42-49 | the parse_data loop returns the records of ParsedData, including the comment parser's fallback to [] |
| Parsers.DecodeEach | instagram/parser.py:45-49 | the append loop over the edges computes MapAll of the edges |
| Parsers.NextVariables | instagram/parser.py:51-54 | the next variables are a copy of the request's with only "after" set, to page_info.end_cursor; they exist exactly when the cursor does |
| Parsers.ParsePageInfo | instagram/parser.py:56-62 | the page info carries the raw end_cursor and has_next_page, under "after_comment_token" for comments and "after_post_token" otherwise |
| Queries.ProxiesOf | instagram/query.py:35-42 | the proxies dict holds "http" and "https" exactly for the truthy settings, with their values, and nothing else |
| Queries.InitProxies | instagram/query.py:35-42 | `_init_proxies` builds the dict ProxiesOf describes |
| Queries.Origin.Get | instagram/query.py:53 | a GET consumes the next reply and logs the request |
| Queries.ReadinessOf | instagram/query.py:56 | a reply is retried exactly when it is a dict with a "status" other than "ok"; a dict never makes the test raise |
| Queries.Retries | instagram/query.py:56 | the reply on which the loop sleeps and resends: a body whose status test says "not ready"; stated by Queries.ReadinessOf |
| Queries.SettleIndex | instagram/query.py:56-61 | the retry loop settles on the first reply at or after the start that is not "not ready" |
| Queries.SettleIndexAt | instagram/query.py:56-61 | that reply is unique: any index with only "not ready" replies before it and a ready one at it is the settle index |
| Queries.ParserOf | instagram/query.py:63-67 | the parser class of a kind as a function from body and variables to a batch, None when one of the three parses raises; stated by Queries.ParserOfSpec |
| Queries.ParserOfSpec | instagram/query.py:63-67 | a parser class yields a batch exactly when its three parses succeed, and the batch is parse_data's records, the next variables and the page info that parse_page_info builds |
| Queries.BatchFrom | instagram/query.py:53-67 | query_batch succeeds exactly when the settled reply is a body whose status test does not raise and the parser accepts it, and then returns the parser's triple |
| Queries.CapReached | instagram/query.py:86-89 | `total_count and len(all_data) >= total_count`: a falsy cap never stops the loop; stated by Queries.QueryAllStopsAtCap |
| Queries.Truncated | instagram/query.py:89-91 | the truncated list is a prefix of all records; a zero cap keeps everything; a positive cap keeps min(cap, count) records |
| Queries.Follow | instagram/query.py:76-91 | the `query_all` loop from a given page on, over the finite list of replies: its result, replies served and pages fetched; stated by Queries.FollowTrace, Queries.FollowResult and Queries.FollowStops on success and by Queries.FollowFailure on failure |
| Queries.QueryAllFrom | instagram/query.py:69-91 | `query_all` from its first page with no records gathered; stated by Queries.QueryAllUncapped, Queries.QueryAllCapped, Queries.QueryAllFirstPage and Queries.QueryAllStopsAtCap on success and by Queries.FollowFailure on failure |
| Queries.FollowTrace | instagram/query.py:77-87 | page 0 is requested with the given variables, each later page with the previous page's next variables, and each page is what query_batch settled on, reply after reply |
| Queries.FollowResult | instagram/query.py:76-91 | a run that ends normally returns all gathered records in page order, truncated to the cap |
| Queries.FollowStops | instagram/query.py:81-87 | a run that ends normally went on after every page but the last and stopped after the last |
| Queries.FollowFailure | instagram/query.py:77-87 | a run that fails went on after every page it fetched, and failed on the batch requested after its last page: that batch, with the last page's next variables, settled on the run's last reply and raised the run's error |
| Queries.FollowFailsAtBatch | instagram/query.py:77-87 | the second half of FollowFailure: a failed run's error is the error of `query_batch` on the request after its last page, and the run consumed exactly the replies up to that batch's settled reply |
| Queries.QueryAllUncapped | instagram/query.py:76-91 | without a cap the result is every page's records concatenated in page order; every page but the last reports a next page and the last does not |
| Queries.QueryAllCapped | instagram/query.py:89-91 | with a positive cap the result is a prefix of the concatenated records, of length min(cap, count) |
| Queries.QueryAllFirstPage | instagram/query.py:77-87 | page 0 is not tested against the cap: when it has a next page, another page is fetched, and when it alone reaches the cap exactly one more page is fetched |
| Queries.QueryAllStopsAtCap | instagram/query.py:81-87 | with a positive cap every middle page leaves the count below the cap, and the run stops at a page without a next page or once the count reaches the cap |
| Queries.Query.constructor | instagram/query.py:20-24 | a query holds its parser class, its session and the proxies from the two settings |
| Queries.Query.QueryBatch | instagram/query.py:44-67 | sends the identical request until a reply is not "not ready", consuming exactly the replies up to the settled one, and returns BatchFrom of it |
| Queries.Query.QueryAll | instagram/query.py:69-91 | returns what QueryAllFrom describes and consumes exactly the replies of that run |
| Downloads.SplitName | instagram/downloader.py:33-37 | `_split_name`; stated by Downloads.SplitNameSpec |
| Downloads.Exists | instagram/downloader.py:55 | `os.path.exists`: a non-empty path that is a file, a directory or the root; "" never exists |
| Downloads.CanWrite | instagram/downloader.py:70 | `open(out, 'wb')` succeeds exactly when the path names a file (no trailing '/'), is not a directory, and its parent directory exists |
| Downloads.Target | instagram/downloader.py:52 | `out or self._split_name(url)`: a non-empty out, otherwise the name SplitName derives from the URL; stated by Downloads.DefaultNameRaises |
| Downloads.DownloadItemSpec | instagram/downloader.py:39-77 | `_download_item`: its result, the disk after it and whether it fetched; stated by Downloads.ItemRaises, Downloads.RaisesBeforeEffects, Downloads.FetchesUnlessSkipped, Downloads.SkipExisting, Downloads.WritesOnlyOnSuccess and Downloads.ItemSettles (which also bounds the directories it creates) |
| Downloads.Prepared | instagram/downloader.py:54-56 | the directories once the target's directory is ensured: unchanged when it exists, otherwise what `os.makedirs` (Downloads.MakeDirs) makes or raises |
| Downloads.Save | instagram/downloader.py:58-77 | the part of `_download_item` after the directory exists; stated by Downloads.SaveWrites, and when it fetches by Downloads.FetchesUnlessSkipped |
| Downloads.SplitNameSpec | instagram/downloader.py:33-37 | `_split_name(None)` is "data/resource"; otherwise it is the last '/'-free segment of the URL before its first '?' |
| Downloads.MakeDirs | instagram/downloader.py:54-56 | `os.makedirs` on success adds the named directory and keeps every existing one; every directory it adds is the name or one of its ancestors (a prefix of the name) |
| Downloads.StatusOk | instagram/downloader.py:67 | `str(res.status_code)[0] != '2'` negated: a non-negative status whose first decimal digit is 2; stated by Downloads.StatusOkIs2xx |
| Downloads.StatusOkIs2xx | instagram/downloader.py:67 | for a three-digit status, the first-digit test is exactly the 2xx class |
| Downloads.ItemRaises | instagram/downloader.py:46-56 | an item raises exactly when url is not a str, out is neither None nor a str (both ValueError), or creating its directory raises |
| Downloads.RaisesBeforeEffects | instagram/downloader.py:46-77 | an item that raises fetched nothing and left the disk as it was; once a fetch happens the item returns a value |
| Downloads.BareNameRaises | instagram/downloader.py:52-56 | an output path without '/' raises FileNotFoundError from `os.makedirs('')`, with no effect |
| Downloads.DefaultNameRaises | instagram/downloader.py:33-56 | so an item with out None or "" always raises FileNotFoundError |
| Downloads.FetchesUnlessSkipped | instagram/downloader.py:58-65 | once the directory is ready, an item fetches its URL exactly when the target does not exist or overwrite is set |
| Downloads.SkipExisting | instagram/downloader.py:58-60 | an existing target is reported as True without a fetch and with the disk unchanged when overwrite is off |
| Downloads.WritesOnlyOnSuccess | instagram/downloader.py:63-77 | a fetched item returns True exactly when the status starts with 2 and the target can be written; only then is the body written, at the target alone |
| Downloads.SaveWrites | instagram/downloader.py:58-77 | the same for the part of the item after the directory exists |
| Downloads.ItemSettles | instagram/downloader.py:54-73 | an item never removes a file or directory, and every directory it adds is a prefix of the target's directory; one that returns leaves its directory in place, and one that returns True leaves its target in place |
| Downloads.Resource.constructor | instagram/downloader.py:110-113 | a resource holds its url and out |
| Downloads.RunItems | instagram/downloader.py:91-95 | a pass has one outcome per resource |
| Downloads.ResultMap | instagram/downloader.py:97-107 | the result map built from the resources and their items' outcomes, taken in list order; stated by Downloads.ResultMapSpec |
| Downloads.ResultMapSpec | instagram/downloader.py:97-107 | the result map has an entry exactly for the resources whose item returned, and a resource listed once maps to its item's result |
| Downloads.ItemOfMonotone | instagram/downloader.py:54-73 | every item only grows the disk, and after an item that returned True its resource is in place |
| Downloads.PassSettles | instagram/downloader.py:91-107 | a pass only grows the disk, and after a pass in which every item returned True every resource is in place |
| Downloads.IdlePass | instagram/downloader.py:91-107 | a pass whose items all skip returns all True and changes nothing |
| Downloads.SecondPassFetchesNothing | instagram/downloader.py:58-60 | downloading the same resources again after an all-True pass, without overwrite, fetches nothing, changes nothing and reports all True |
| Downloads.FileSystem.MakeDirectories | instagram/downloader.py:56 | `os.makedirs` adds the directories MakeDirs describes, or raises and changes nothing |
| Downloads.FileSystem.WriteFile | instagram/downloader.py:70-71 | writing succeeds exactly when the path can be written, and then stores the body there alone |
| Downloads.Downloader.constructor | instagram/downloader.py:20-22 | a downloader starts with its session and disk and no fetches |
| Downloads.Downloader.DownloadItem | instagram/downloader.py:39-77 | `_download_item` returns what DownloadItemSpec says, leaves the disk it describes, and logs the URL exactly when it fetched |
| Downloads.Downloader.SaveTarget | instagram/downloader.py:58-77 | the skip/fetch/write part of `_download_item` follows Save |
| Downloads.Downloader.Download | instagram/downloader.py:79-107 | an empty list raises ValueError and changes nothing; otherwise the items run in turn and the result is the map of their returned values |
| Tasks.Tagged | instagram/instagram.py:58-59 | every tagged comment gains post_short_code equal to the post's short code and keeps every other field |
| Tasks.TagComments | instagram/instagram.py:58-59 | the tagging loop computes Tagged |
| Tasks.CollectFrom | instagram/instagram.py:51-61 | the comment stage from a reply index on: each post's comments queried without or with the cap, tagged, and concatenated in post order, or the first failure; stated by Tasks.CollectedTagged, Tasks.CollectCapped, Tasks.CollectPerPost and Tasks.CollectStretch on success, by Tasks.CollectOne and Tasks.CollectAppend for its recursion, and by Tasks.CollectFails on failure |
| Tasks.CollectedTagged | instagram/instagram.py:52-60 | when the comment stage succeeds every post has a short code, and every collected comment carries the short code of one of the posts |
| Tasks.CollectFails | instagram/instagram.py:51-61 | a comment stage that fails failed at one post, after every earlier post went through: that post has no short code (MissingShortCode), or its comment query raised and the stage fails with that query's error, having used the GETs of that query |
| Tasks.CollectOne | instagram/instagram.py:51-61 | the comment stage over one post: MissingShortCode without a short code, else that post's `query_all` failure with its error, else that post's comments tagged with its short code, with the GETs the query used |
| Tasks.CollectAppend | instagram/instagram.py:51-61 | the comment stage over two runs of posts is the stage over the first, then (unless it failed) the stage over the second from the GET where the first stopped, the comments concatenated |
| Tasks.CollectStretch | instagram/instagram.py:51-61 | on success, post j's stretch starts where the earlier posts' comments end and is exactly the comments its own `query_all` fetched from that GET on, each tagged with its short code |
| Tasks.FailsAtCons | instagram/instagram.py:51-61 | one round of the comment loop: a failure at a later post is a failure of the whole stage at that post |
| Tasks.CollectCapped | instagram/instagram.py:102-110 | with a positive cap, the comment stage returns at most cap × (number of posts) comments in total |
| Tasks.CollectPerPost | instagram/instagram.py:101-110 | on success the comments split into one consecutive stretch per post, in post order; each stretch carries its post's short code and, with a positive cap, holds at most cap comments; Tasks.CollectStretch states that the stretch is exactly that post's fetched comments |
| Tasks.PerPostCons | instagram/instagram.py:101-110 | one round of the comment loop: a post's tagged stretch in front of the later posts' stretches keeps that split |
| Tasks.CollectComments | instagram/instagram.py:51-61 | the comment loop returns what CollectFrom describes: per-post tagged comments concatenated in post order, or the first failure |
| Tasks.FetchPostsAndComments | instagram/instagram.py:19-66 | queries the author's posts with the count, then their comments without a cap, on two separate sessions |
| Tasks.FetchTagPostsAndComments | instagram/instagram.py:69-116 | queries the tag's posts with the count, then at most 100 comments per post |
| Tasks.CheckDataPath | instagram/instagram.py:185-193 | the three checks of the data path; stated by Tasks.DataPathChecks |
| Tasks.DataPathChecks | instagram/instagram.py:185-193 | the data path is accepted exactly when it is an existing .xls/.xlsx path; otherwise ValueError, FileNotFoundError and TypeError are tried in that order |
| Tasks.Skipped | instagram/instagram.py:202 | `not url or pd.isna(url)`: an empty, zero or NaN URL cell; stated by Tasks.RowSkips |
| Tasks.UrlExt | instagram/instagram.py:204 | the extension of a URL's path is empty or starts with '.' and holds no '/' or '?' |
| Tasks.OutValues | instagram/instagram.py:205 | the out-field values exist exactly when every field is a text column of the row; a missing column raises KeyError before a non-text cell raises TypeError |
| Tasks.RowTarget | instagram/instagram.py:201-206 | one sheet row: no resource, the URL and output path of one, or the exception the row raises; stated by Tasks.RowSkips and Tasks.RowTargetShape |
| Tasks.RowTargetShape | instagram/instagram.py:201-206 | a row's resource fetches the row's non-empty URL and saves it under out_dir, to a name made of the '-'-joined out fields and the URL's extension |
| Tasks.RowTargetDir | instagram/instagram.py:205-206 | completes RowTargetShape: when that name holds no '/', the output path's directory is out_dir itself (as DirOf reports it), with no level in between, and its last component is the name |
| Tasks.RowSkips | instagram/instagram.py:201-203 | a row that does not raise has the URL column, and yields no resource exactly when its URL cell is empty, zero or NaN |
| Tasks.Targets | instagram/instagram.py:199-207 | never more resources than rows |
| Tasks.TargetsAppend | instagram/instagram.py:199-207 | resources follow row order: two stretches of rows yield the first stretch's resources followed by the second's, and the earlier exception wins |
| Tasks.TargetsSucceed | instagram/instagram.py:199-207 | deriving succeeds exactly when every row does |
| Tasks.TargetsKeepAll | instagram/instagram.py:199-207 | there is one resource per row exactly when every row yields one |
| Tasks.SheetKeepsRows | instagram/instagram.py:200-203 | on success every row has the URL column, and there is one resource per row exactly when no URL cell is skipped |
| Tasks.DeriveResources | instagram/instagram.py:199-207 | the row loop creates distinct new resources, the i-th with the i-th derived URL and path, or raises the first row's exception |
| Tasks.DownloadResources | instagram/instagram.py:176-210 | checks the path, defaults out_fields to ["short_code"], derives the resources, and downloads them without overwrite; a failed check or row changes nothing |

## Left out

- HTTP sessions, headers, URL formatting of the endpoint and JSON decoding of reply bytes: a reply is given already decoded, or as `Raised`.
- `time.sleep` in the retry loop; the replies are a finite list, and running out of them counts as a raised request.
- The thread pool and `as_completed`: `download` runs its items one after another, in list order, and the model's result map takes their outcomes in that order. The code writes the map in completion order, so for a resource listed twice it keeps the result of whichever item finishes last. Concurrency also brings a race the model does not capture: two items whose output shares a missing directory can both find it missing at downloader.py:55; the second `os.makedirs` then raises `FileExistsError`, and that resource is left out of the map (downloader.py:104-105). `task_download_resources`, with one `out_dir` and 100 workers, is exactly that case when `out_dir` does not exist yet.
- The `Iterable` check in `download`: the model's argument is always a list.
- The `timeout` argument of `_download_item`: a timeout is one of the ways a fetch raises.
- Logging, and the `print` in `CommentParser.parse_data`.
- `formatted-time`: `datetime.fromtimestamp(...).strftime(...)` depends on the local time zone, so it is a function parameter that may fail.
- pandas: `read_excel` is replaced by the sheet's rows as a parameter, and cells are only text, integers or NaN. `DataFrame(...).to_excel` is the returned tables.
- `task_fetch_posts` and `task_fetch_tag_posts`: each is the posts half of its fetch task, with nothing more to state.
- instagram/common.py is not part of this model. The query hashes and the two proxy settings are a `Config` parameter.
- instagram/test.py is not part of this model: it only prints what live queries return.
- Paths are compared as plain strings, with no normalisation of "." or "..". `os.path.exists` follows the file map and the directory set.
- Queries.Query.QueryAll: states the result and the number of replies consumed, but not the log of requests sent; each batch's log is stated by Queries.Query.QueryBatch.
- Downloads.ResultMapSpec: for a resource object listed twice, only says that the map has an entry for it. The code keeps the result of whichever of its items completes last; the model's `ResultMap` keeps the later one in list order.
