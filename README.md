# bio-drive: folder-tree crawler and path lookup, modelled in Dafny

The repository serves a Google Drive folder tree as web pages. Two pieces of
logic meet at one nested JSON document:

- `appendFolders` in `src/files/generateFiles.js` builds it. For one folder
  it pages through the Drive listing. On error code 403 it waits and repeats
  the same page request. On any other error it returns silently. It then
  sorts the entries of the last response into the node: folders become keys
  holding `{id}`, other entries are pushed onto `files` as `{name, id}`.
  Finally it recurses into every key except `files` and `id`. The driver
  seeds each root as `{id}`, awaits the crawl and writes the document.
- `getFilesData` in `src/server.js` reads it. It takes the route's wildcard,
  drops its last character, splits it on `/` and walks the document key by
  key. It answers 404 "Not found." at the first absent key. `assertString`
  checks that a value is a string.

Modules, one per file:

- `Options` (options.dfy): the optional value.
- `JsonValues` (json_values.dfy): the document (`Json`) and JavaScript's
  `node[key]` on it. That covers own keys of objects, plus canonical decimal
  indices and `length` on arrays and strings.
- `Listing` (listing.dfy): the `do … while` paging/retry loop.
  - `ListFolder` is the loop. `Run` is its specification.
  - The remote is a script: for each folder id, the replies to the successive
    calls made while listing that folder.
- `Classification` (classification.dfy): the `forEach` over the last
  page's entries. `ClassifyEntries` is the loop; `Classify` is its
  specification.
- `Crawler` (crawler.dfy):
  - `AppendFolders` and `AppendChildren` are the recursion. They are proved
    against the ghost function `Crawl`.
  - `GenerateFiles` is the driver.
  - `Bounded` states that the crawl is finite: each folder's script reaches a
    final reply, and the folders that reply lists are bounded one level lower.
    It gives the recursion its termination measure.
- `Lookup` (lookup.dfy): `AssertString`, `split("/")` as `Split`, and the
  walk. `GetFilesData` is the middleware loop. `Resolve` is its
  specification.
- `RoundTrip` (round_trip.dfy): the crawler's output read back by the server.
- `Scenarios` (scenarios.dfy): worked cases on concrete scripts.

Behaviour of the code that the model keeps as written:

- The retried error code is 403, as `err.code != "403"` tests.
- Only the final page's entries are recorded, not the union of all pages.
  A folder listed over several pages loses the entries of all pages but the
  last (`Listing.RunStopsAtFirstFinal`, `Scenarios.RetryThenLastPageOnly`).
- An error other than 403 does not fail the crawl. The folder stays `{id}`
  and its parent's tree is still written (`Crawler.AbortLeavesSeed`,
  `Crawler.FailedFolderStaysSeed`).
- A crawl fails only when a `push` throws. That happens when a folder named
  `files` is listed before a file. The driver then writes nothing for that
  root or any later one (`Crawler.GenerateFiles`).
- A folder named `__proto__` adds no key: the assignment calls the
  prototype setter, so that folder is neither crawled nor written
  (`Classification.ClassifyProtoKey`, `Scenarios.ProtoFolderIgnored`).

## Model

| member | source | states |
|---|---|---|
| `Listing.ListFolder` | src/files/generateFiles.js:32-59 | the paging loop ends as `Run` says: its result, every page token it sent and the final `num_tries` |
| `Listing.RunStopsAtFirstFinal` | src/files/generateFiles.js:38-61 | the loop makes exactly one call per reply up to the first final reply (a page with no next token, or an error other than 403). It returns early exactly when that reply is such an error. Otherwise it keeps only that last page's entries. `num_tries` counts the 403 replies met |
| `Listing.RunRequests` | src/files/generateFiles.js:40-58 | the first call sends no token. After a 403 the next call sends the same token again. After a page it sends the token that page returned. No reply before the last is final |
| `Listing.RunFromTrace` | src/files/generateFiles.js:38-59 | the loop run from any intermediate state sends, call by call, the tokens `Requested` defines. It stops at the first final reply and counts the 403 replies |
| `Listing.FirstFinal` | src/files/generateFiles.js:46-59 | the first reply that ends the loop: a page with no next token (the test on line 59) or an error other than 403 (the `return` on line 48). No earlier reply does |
| `Classification.ClassifyEntries` | src/files/generateFiles.js:61-68 | the `forEach` loop ends as `Classify` says, stopping at the TypeError of `push`, and skipping the key for a folder named `__proto__` |
| `Classification.ClassifyFolderKeys` | src/files/generateFiles.js:62-63 | every key other than `files` and `__proto__` holds `{id}` of the last folder listed under that name, so a later folder overwrites an earlier one. A key no folder is named after keeps its old value (so `id` survives unless a folder is named `id`) |
| `Classification.ClassifyProtoKey` | src/files/generateFiles.js:62-63 | a folder named `__proto__` never creates a key: the node has that key after classification exactly when it had it before, with the same value |
| `Classification.ClassifyFiles` | src/files/generateFiles.js:62-67 | for a node without `files`: the callback throws exactly when a folder named `files` precedes a file. Otherwise `files` holds the last such folder's `{id}`, or the `{name, id}` records of all files in listing order, duplicates kept. The key is absent when there are no files |
| `Classification.AddEntryFiles` | src/files/generateFiles.js:62-67 | one callback throws exactly when a file meets a `files` key set by a folder. Otherwise it keeps `files` as the last `files` folder's `{id}`, or as the records of all files so far |
| `Classification.ThrownStaysThrown` | src/files/generateFiles.js:61-68 | once the callback has thrown, the remaining entries change nothing |
| `Classification.FolderThenFileLast` | src/files/generateFiles.js:62-67 | a `files` folder precedes a file in a listing exactly when it does so before the last entry, or the last entry is a file and such a folder came earlier |
| `Classification.LastFolder` | src/files/generateFiles.js:63 | the position of the last folder entry with a given name: it names such a folder, and no later entry does |
| `Crawler.AppendFolders` | src/files/generateFiles.js:31-77 | one folder's crawl (list, classify the last page, recurse) ends as `Crawl` says |
| `Crawler.AppendChildren` | src/files/generateFiles.js:72-76 | every key but `files` and `id` is replaced by its crawled subtree. The node is returned only after all of them are. Any subtree that throws makes the node throw. This is the result `Descend` defines |
| `Crawler.DescendLeaf` | src/files/generateFiles.js:72-76 | a node with no key but `files` and `id` is returned unchanged |
| `Crawler.DescendSingleFolder` | src/files/generateFiles.js:72-76 | a node with one folder key, whose crawl returns, is returned with that crawl under the key and every other key unchanged |
| `Crawler.ClassifiedChildrenBounded` | src/files/generateFiles.js:61-75 | after classification, every key the recursion enters holds `{id}` of a folder of that name listed on the last page, and that folder's crawl ends one level lower |
| `Crawler.AbortLeavesSeed` | src/files/generateFiles.js:45-49 | when the listing's first final reply is an error other than 403, the node stays `{id}`, with no folder key and no `files`, and the crawl returns normally |
| `Crawler.CrawledKeys` | src/files/generateFiles.js:61-76 | a crawled node has exactly the keys classification gave it, never `__proto__`. `files` and `id` keep their classified values. Every other key holds the complete crawl of the folder last listed under that name |
| `Crawler.FailedFolderStaysSeed` | src/files/generateFiles.js:46-48 | a subfolder whose listing fails with an error other than 403 stays `{id}` inside a tree that is still returned. The driver then writes that partial tree |
| `Crawler.GenerateFiles` | src/files/generateFiles.js:13-26 | each root is seeded `{id: ROOT_IDS[i]}` and crawled in order. Its file is written with the complete crawled document after the crawl returns. A crawl that throws stops the driver, so that root and all later ones are not written |
| `Crawler.Seed` | src/files/generateFiles.js:16 | the seed `{id}` has the key `id`, holding a string, and no other key |
| `Lookup.AssertString` | src/server.js:20-25 | returns its argument unchanged exactly when it is a string. Otherwise it throws with the given message |
| `Lookup.Split` | src/server.js:116 | `split("/")` gives at least one piece, and no piece holds a slash |
| `Lookup.JoinSplit` | src/server.js:116 | splitting on "/" loses nothing: joining the pieces with "/" gives the string back |
| `Lookup.SplitJoin` | src/server.js:116 | slash-free pieces joined with "/" split back into the same pieces |
| `Lookup.ResolveAppend` | src/server.js:118-125 | walking `p + q` is walking `p`, then `q` from the node reached |
| `Lookup.ResolvePrefix` | src/server.js:118-125 | resolution is prefix-closed: if a segment list resolves, every prefix of it does |
| `Lookup.ResolveFailsAtAbsentKey` | src/server.js:118-125 | a segment list fails to resolve exactly when some prefix resolves and the next segment is absent there |
| `Lookup.FirstAbsent` | src/server.js:118-123 | an unresolved segment list has a first absent segment, after a prefix that resolves |
| `Lookup.GetFilesData` | src/server.js:105-131 | an empty wildcard gives `myPath = []` and `filesData = null` without any lookup. Otherwise the segments are the wildcard less its last character, split on "/". If every segment is found, `myPath` is those segments in order and `filesData` the node reached. Otherwise the outcome is 404 "Not found." with neither set |
| `JsonValues.IndexOf` | src/server.js:120 | a key reaches an array or string element only as the canonical decimal spelling of its index |
| `JsonValues.IndexOfDecimal` | src/server.js:120 | every index's decimal spelling is read back as that index |
| `JsonValues.ArrayElement` | src/server.js:120-124 | element `n` of an array is what `node[Decimal(n)]` gives, and undefined past the end |
| `JsonValues.Decimal` | src/server.js:120 | an index's decimal spelling is a non-empty digit string that starts with 0 only for 0 |
| `RoundTrip.LookupFindsCrawledFolder` | src/server.js:118-129 | walking a crawled document by the folder names the crawl used reaches exactly the node the crawl built for that folder, with its `id` and `files` |
| `RoundTrip.ServeCrawledFolder` | src/server.js:109-129 | a request for a crawled path (slash-free names joined by "/" with a trailing "/") splits back into that path and resolves to the crawled node |
| `Scenarios.RetryThenLastPageOnly` | src/files/generateFiles.js:38-61 | page, then 403, then last page: the retry resends the first page's token, `num_tries` is 1, and only the last page's entries are kept |
| `Scenarios.FaultAfterPage` | src/files/generateFiles.js:45-49 | an error other than 403 after a page returns at once with that code |
| `Scenarios.FolderNamedFiles` | src/files/generateFiles.js:62-67 | a folder named `files` before a file throws. After the files, it replaces them |
| `Scenarios.ProtoFolderIgnored` | src/files/generateFiles.js:62-67 | a folder named `__proto__` followed by a file leaves the node as `{id, files: [file]}` |
| `Scenarios.TwoLevelTree` | src/files/generateFiles.js:31-77 | any remote that lists folder `A` and file `doc.txt` under the root, and lists `A` over two pages with `x.txt` on the second, crawls the root to `{id, A: {id, files: [x.txt]}, files: [doc.txt]}` |

## Left out

- The Express application, routes, views and the OAuth login flow (src/server.js:84-93, 134-207): HTTP glue and an external network call.
- JWT signing and verification and the cookie options (src/server.js:41-82): thin wrappers over a crypto library with a random secret.
- Environment reads and the `assertString` calls on them (src/server.js:1-38; src/files/generateFiles.js:1-8): configuration. `GenerateFiles` takes the remotes, root ids and file names as parameters.
- The Drive client (src/files/generateFiles.js:2, 15, 40-44): a per-folder script of replies stands in for it. The script ignores the token sent, and the `q`/`orderBy` arguments are not modelled. The tokens sent are recorded.
- `Bounded` also asks for a terminating script for every folder on the last page that the recursion never enters: a folder named `files`, `id` or `__proto__`, or one that a later folder of the same name overwrites. A remote that lacks a script only for such a folder is outside the model, although the source finishes on it. Giving it a script changes nothing that the crawl produces.
- A remote that answers 403 forever: the source then loops forever. `Bounded` requires every folder's script to reach a final reply.
- The backoff wait `2 ** num_tries * Math.random() * 1000` (src/files/generateFiles.js:50-52): random floating-point timing. Only `num_tries` and `retry` are modelled.
- `console.log` of errors, `JSON.stringify` formatting and `fs.writeFile` with its error callback (src/files/generateFiles.js:18-24). A write is recorded as an event carrying the document value. A failed write is not modelled.
- In-place mutation and `Promise.all` concurrency (src/files/generateFiles.js:31-77). The crawl is modelled on values: a node's new keys are returned and replace it. Siblings are crawled one after another. This is faithful because every node has one owner and siblings touch disjoint nodes. When a crawl throws, the partly updated tree is not kept: no one reads it.
- The order of `for … in` over keys (integer-like keys first): with disjoint siblings, the order changes nothing in the result.
- Properties inherited from `Object.prototype` and the prototypes of arrays, strings and numbers (`toString`, `push`, …). Only own keys, element indices and `length` are modelled. A path through an inherited name would resolve in the source but is "not found" here. The prototype that a folder named `__proto__` installs on a node is dropped, as `for … in` and `JSON.stringify` never show it.
- Property access on `null` and booleans: the crawler writes neither into the document.
- Strings as UTF-16: a string element here is one Unicode character, not one UTF-16 code unit.
- Lookup.GetFilesData: after the 404 response the source still calls `next()`. The model ends there with the 404 outcome and does not model the handler that runs after it.
- Crawler.AppendFolders: a TypeError is recorded as `Threw` without the error's message or the partly classified node.
