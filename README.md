# Game-hub content scripts, modelled in Dafny

This project models the scripting core of a static game-hub site. The site's
content is kept as one JSON file per game, build, guide and tool. The model
covers four scripts:

- **The content index builder** (`scripts/build-content-index.mjs`, module
  `ContentIndex`). It lists the entry files of each collection directory,
  leaving out `index.json`. It turns each file into a record with defaulted
  fields, copies the allow-listed pass-through fields (`pickExtras`), and
  enriches builds, guides and tools with the parent game's name and status.
  The parent reference is normalised from a path like
  `content/games/<slug>.json` to its slug. The records are then sorted: games
  by name, builds by `updatedAt` newest first and then by title, guides by
  `date` newest first and then by title, tools by title. The games map loaded
  once at the start is proved to be a pure cache: every enriched record is
  what reading the parent game's file directly would give, at the point of
  the run where the games `index.json` has just been written. A reference to
  the game `index` therefore reads that freshly written index file.
- **The `updatedAt` toucher** (`scripts/touch-updatedAt.mjs`, module
  `TouchUpdatedAt`). It takes the paths listed in `MODIFIED` and keeps those
  under `content/builds|guides|tools/` that end in `.json`. Each such file
  that parses to an object gets today's date as `updatedAt`. An array is
  written back as it was. Anything else is skipped. Running it twice on the
  same day gives the same files as running it once. The path pattern also
  admits the generated `index.json` of each of those collections.
- **The UI patch** (`ui-patch.js`, module `UiPatch`). It has three parts:
  - The hash micro-router shows the view named by `#/<route>`, or `jeux` by
    default, and marks the matching link as active.
  - The pager shows three cards per page, with `page/total` info and
    disabled buttons at either end. Prev and Next keep the page within
    bounds. Its `initialized` flag means a pager is built once per page
    load: a later `content:updated` event never re-renders it.
  - The collection loader appends one game card per item of `jeux.json`. It
    appends nothing when the collection already has a card, but still
    announces `content:updated` so that the pager is initialised. It stops
    at the first `null` item, where reading `item.url` throws.
- **The shared header** (`assets/header.js`, module `Header`). It fetches
  `/<first path segment>/partials/header.html`. On a page at the top of the
  site, that first segment is the page's own file name. It then marks the
  navigation link of the current file as active, ignoring letter case, and
  writes the page label: the trimmed `cms:label` meta content, otherwise the
  label of the file name, otherwise `''`.

The supporting modules are `Json` (parsed values and the JavaScript
semantics of `||`, `??`, truthiness and `String(v)`), `Text` (strings:
split, trim, lower case, code-point order), `Sorting` (a stable insertion
sort and its proofs), `Dom` (the slice of a DOM element the scripts touch)
and `Wrappers` (`Option`).

The environment enters as parameters:

- The file system is given as directory listings and parse results.
- The French collation behind `cmpStr` is a caller-supplied key function.
- The current date is an ISO string.
- The outcome of a `fetch` is a predicate on the URL, or a parse result.
- The page is given as the elements each script selects.

## Model

| member | source | states |
|---|---|---|
| ContentIndex.PickExtras | scripts/build-content-index.mjs:7-17 | the result holds exactly the allow-listed keys the source has with a non-null value, each with the source's value |
| ContentIndex.ListJson | scripts/build-content-index.mjs:26-33 | a failed `readdir` gives no files; otherwise a name is kept iff it is listed, ends in `.json` and is not `index.json`, with its multiplicity |
| ContentIndex.ListJsonDistinct | scripts/build-content-index.mjs:26-33 | a listing without repeated names yields entry files without repetition |
| ContentIndex.FileSlug | scripts/build-content-index.mjs:34 | a name ending in `.json` is its slug followed by `.json`; any other name is its own slug |
| ContentIndex.FileSlugInjective | scripts/build-content-index.mjs:34 | two `.json` files with the same slug are the same file |
| ContentIndex.PathToSlug | scripts/build-content-index.mjs:44-48 | `''` stays `''`; the result is either the input unchanged or the name captured from a `content/games/<name>.json` ending |
| ContentIndex.PathToSlugOfGamePath | scripts/build-content-index.mjs:46-47 | every path ending in `content/games/<name>.json`, in any letter case, with a non-empty slash-free name, normalises to that name |
| ContentIndex.PathToSlugIdempotent | scripts/build-content-index.mjs:50-51 | normalising twice equals normalising once, so the second normalisation inside `resolveGameMeta` changes nothing |
| ContentIndex.Resolve | scripts/build-content-index.mjs:50-60 | `resolveGameMeta` keeps the normalised slug and always gives a truthy status |
| ContentIndex.ResolvePathOrSlug | scripts/build-content-index.mjs:50-51 | a game named by the path of its file and by its slug resolves alike |
| ContentIndex.MetaOf | scripts/build-content-index.mjs:54-59 | the metadata keeps the slug and always has a truthy status; an unusable file gives name `''`, status `actif`, cover `''` |
| ContentIndex.LoadGamesMap | scripts/build-content-index.mjs:63-78 | the map's keys are the slugs of the listed game files, and each entry is the metadata read from that slug's file |
| ContentIndex.LookupGame | scripts/build-content-index.mjs:116 | with a map that agrees with the game files, looking a normalised slug up gives what `resolveGameMeta` gives |
| ContentIndex.GameRef | scripts/build-content-index.mjs:114 | the reference is a truthy `gameName`, else a truthy `game`, else `''`; a non-empty reference is one of those two string fields |
| ContentIndex.LinkGame | scripts/build-content-index.mjs:114-132 | the link always has a truthy status, and with an agreeing map its `gameName` is the normalised reference |
| ContentIndex.LookupIsRead | scripts/build-content-index.mjs:116 | looking a normalised slug up in the map, falling back to `resolveGameMeta`, gives what reading the game file directly gives |
| ContentIndex.LinkGameReadsGame | scripts/build-content-index.mjs:114-132 | the enrichment names the normalised slug and carries the game file's `name` (default `''`) and `status` (default `actif`) |
| ContentIndex.LinkMissingGame | scripts/build-content-index.mjs:130-132 | a missing or unusable parent game gives display name `''` and status `actif` |
| ContentIndex.LinkGameCacheFree | scripts/build-content-index.mjs:62-78 | the enrichment is the same with the loaded games map as with an empty one |
| ContentIndex.EmptyBuildDefaults | scripts/build-content-index.mjs:118-135 | an unusable build file gives `''` text fields, `null` stars and cost, no extras and an empty game name |
| ContentIndex.CmpStr | scripts/build-content-index.mjs:35 | the comparison is -1, 0 or 1, is 0 iff the collation keys are equal, and is antisymmetric |
| ContentIndex.CmpDateDesc | scripts/build-content-index.mjs:36-40 | the result is 1 iff the first date string is smaller, -1 iff it is larger, 0 iff they are equal |
| ContentIndex.CmpDateDescIsLex | scripts/build-content-index.mjs:36-40 | the descending comparison is the ascending code-point comparison with the arguments swapped |
| ContentIndex.ThenTransitive | scripts/build-content-index.mjs:138-141 | a lexicographic comparison with a second one as tie-break is transitive |
| ContentIndex.GameLeIsPreorder | scripts/build-content-index.mjs:99 | ordering games by `cmpStr` on the name is total and transitive |
| ContentIndex.BuildLeIsPreorder | scripts/build-content-index.mjs:138-141 | ordering builds by `updatedAt` descending, then title, is total and transitive |
| ContentIndex.GuideLeIsPreorder | scripts/build-content-index.mjs:174-177 | ordering guides by `date` descending, then title, is total and transitive |
| ContentIndex.ToolLeIsPreorder | scripts/build-content-index.mjs:210 | ordering tools by `cmpStr` on the title is total and transitive |
| ContentIndex.DateThenTitleIsPreorder | scripts/build-content-index.mjs:138-141 | of two entries compared by date descending then title, one is always at most the other |
| ContentIndex.DateThenTitleTransitive | scripts/build-content-index.mjs:138-141 | the date-then-title comparison is transitive |
| ContentIndex.BuildsOrder | scripts/build-content-index.mjs:137-141 | along a sorted builds index `updatedAt` never increases, and equal dates are in title order |
| ContentIndex.GuidesOrder | scripts/build-content-index.mjs:173-177 | along a sorted guides index `date` never increases, and equal dates are in title order |
| ContentIndex.GameRecord | scripts/build-content-index.mjs:84-98 | a game record has the file's slug, a truthy status and only allow-listed non-null extras; its fields take the defaults `GameDefaults` states |
| ContentIndex.BuildRecord | scripts/build-content-index.mjs:109-135 | a build record has the file's slug, a truthy game status, only allow-listed non-null extras, and with an agreeing map names the normalised parent game; its fields take the defaults `BuildDefaults` states |
| ContentIndex.GuideRecord | scripts/build-content-index.mjs:151-171 | a guide record has the file's slug, a truthy game status, only allow-listed non-null extras, and with an agreeing map names the normalised parent game; its fields take the defaults `GuideDefaults` states |
| ContentIndex.ToolRecord | scripts/build-content-index.mjs:187-207 | a tool record has the file's slug, a truthy game status, only allow-listed non-null extras, and with an agreeing map names the normalised parent game; its fields take the defaults `ToolDefaults` states |
| ContentIndex.GameDefaults | scripts/build-content-index.mjs:86-97 | for any game file, `name`, `cover`, `short` and `publisher` are kept when truthy and `''` when missing or falsy, `status` is kept when truthy and `actif` otherwise, and the extras are the picked ones; an unusable file thus gives every default |
| ContentIndex.BuildDefaults | scripts/build-content-index.mjs:111-135 | for any build file, each text field is kept when truthy and `''` when missing or falsy; `difficultyStars` and `cost` keep any present value, `0` and `false` included, and are `null` when missing; the extras are the picked ones |
| ContentIndex.GuideDefaults | scripts/build-content-index.mjs:153-171 | for any guide file, `title`, `resource`, `route`, `cover` and `date` are kept when truthy and `''` when missing or falsy, and the extras are the picked ones |
| ContentIndex.ToolDefaults | scripts/build-content-index.mjs:189-207 | for any tool file, `title`, `kind`, `url`, `notes` and `cover` are kept when truthy and `''` when missing or falsy, and the extras are the picked ones |
| ContentIndex.GameRecords | scripts/build-content-index.mjs:82-98 | one record per entry file, each with that file's slug, in listing order |
| ContentIndex.BuildRecords | scripts/build-content-index.mjs:107-136 | one record per entry file, each with that file's slug, in listing order |
| ContentIndex.GuideRecords | scripts/build-content-index.mjs:149-172 | one record per entry file, each with that file's slug, in listing order |
| ContentIndex.ToolRecords | scripts/build-content-index.mjs:185-208 | one record per entry file, each with that file's slug, in listing order |
| ContentIndex.GameItems | scripts/build-content-index.mjs:84-98 | the loop produces one game record per entry file, in listing order |
| ContentIndex.BuildGames | scripts/build-content-index.mjs:80-103 | the games index is a permutation of the game records, sorted by name; for a listing without repeats it has exactly one item per entry file |
| ContentIndex.BuildItems | scripts/build-content-index.mjs:108-136 | the loop produces one enriched build record per entry file, in listing order |
| ContentIndex.BuildBuilds | scripts/build-content-index.mjs:105-145 | the builds index is a permutation of the build records, sorted by `updatedAt` descending then title; for a listing without repeats it has exactly one item per entry file |
| ContentIndex.GuideItems | scripts/build-content-index.mjs:150-172 | the loop produces one enriched guide record per entry file, in listing order |
| ContentIndex.BuildGuides | scripts/build-content-index.mjs:147-181 | the guides index is a permutation of the guide records, sorted by `date` descending then title; for a listing without repeats it has exactly one item per entry file |
| ContentIndex.ToolItems | scripts/build-content-index.mjs:186-208 | the loop produces one enriched tool record per entry file, in listing order |
| ContentIndex.BuildTools | scripts/build-content-index.mjs:183-214 | the tools index is a permutation of the tool records, sorted by title; for a listing without repeats it has exactly one item per entry file |
| ContentIndex.WithGamesIndex | scripts/build-content-index.mjs:100-102 | writing the games index changes only `index.json`, which then holds an object with just `items` |
| ContentIndex.CacheAgreesAfterIndex | scripts/build-content-index.mjs:100-102 | the games map loaded before the write still agrees with the game files after it, since no listed game has the slug `index` |
| ContentIndex.IndexRefReadsWrittenIndex | scripts/build-content-index.mjs:216-221 | a build, guide or tool referring to the game `index` reads the freshly written games index: display name `''`, status `actif` |
| ContentIndex.BuildAll | scripts/build-content-index.mjs:216-223 | the four indexes are sorted permutations of their records; the enriched ones equal records built without any cache from the games directory as it is after the games index is written |
| ContentIndex.RecordsCacheFree | scripts/build-content-index.mjs:216-221 | build, guide and tool records are the same with the games map as without it |
| ContentIndex.PermutationOneItemPerFile | scripts/build-content-index.mjs:84-99 | an index permuting a collection's records has as many items as entry files, pairwise distinct slugs, and exactly the files' slugs |
| ContentIndex.ExampleFiles | scripts/build-content-index.mjs:29 | a directory listing `a.json` and `b.json` keeps both, in order |
| ContentIndex.NamedGameRecord | scripts/build-content-index.mjs:90 | a game file holding only a name gives its record that name |
| ContentIndex.ExampleRecords | scripts/build-content-index.mjs:84-98 | the two example files give the records `Zeta` and `Alpha`, in listing order |
| ContentIndex.ExampleGamesOrder | scripts/build-content-index.mjs:99 | whatever order the sort picks, with code-point collation `Alpha` comes before `Zeta` |
| Sorting.SortBy | scripts/build-content-index.mjs:99 | for a total preorder, the result is a permutation of the input and sorted |
| Sorting.InsertSorted | scripts/build-content-index.mjs:99 | inserting into a sorted list keeps it sorted |
| Text.SplitJoin | scripts/touch-updatedAt.mjs:4 | joining pieces free of the separator and splitting the result gives the pieces back |
| Text.JoinSplit | scripts/touch-updatedAt.mjs:4 | joining the pieces of a split gives the original string back |
| Text.LessTrichotomy | scripts/build-content-index.mjs:39 | string `<` is a strict total order: exactly one of `a < b`, `a == b`, `b < a` |
| Json.NatTextRoundTrip | ui-patch.js:43 | the decimal text of a page number reads back as that number |
| TouchUpdatedAt.ModifiedList | scripts/touch-updatedAt.mjs:4 | every listed path is a non-empty trimmed line of `MODIFIED`, and every line that is not blank once trimmed is listed |
| TouchUpdatedAt.NonEmptyTrimmed | scripts/touch-updatedAt.mjs:4 | every listed path is a non-empty trimmed line, and every line that is not blank once trimmed is listed |
| TouchUpdatedAt.ModifiedListEntries | scripts/touch-updatedAt.mjs:4 | without `MODIFIED` nothing is listed; every listed path is non-empty, already trimmed and has no newline |
| TouchUpdatedAt.InCollectionOf | scripts/touch-updatedAt.mjs:5 | any non-empty single-line name under `content/<dir>/` ending in `.json` matches that directory's part of the pattern |
| TouchUpdatedAt.InCollectionShape | scripts/touch-updatedAt.mjs:5 | a path is in a collection directory iff it is `content/<dir>/<name>.json` for a non-empty single-line `name` |
| TouchUpdatedAt.GateShape | scripts/touch-updatedAt.mjs:5 | the pattern admits exactly the paths `content/<dir>/<name>.json` with `dir` one of `builds`, `guides`, `tools` and `name` non-empty and single-line |
| TouchUpdatedAt.GateAdmitsIndex | scripts/touch-updatedAt.mjs:5 | the pattern admits `index.json` of builds, guides and tools |
| TouchUpdatedAt.Today | scripts/touch-updatedAt.mjs:6 | the date is the first ten characters of the ISO timestamp, or all of a shorter one |
| TouchUpdatedAt.Touched | scripts/touch-updatedAt.mjs:10-16 | an object gains `updatedAt` set to today and keeps every other field; anything else is left as it was |
| TouchUpdatedAt.TouchedIdempotent | scripts/touch-updatedAt.mjs:13 | setting `updatedAt` twice to the same day is setting it once |
| TouchUpdatedAt.TouchedDisk | scripts/touch-updatedAt.mjs:8-17 | the run keeps the set of files |
| TouchUpdatedAt.RunTwice | scripts/touch-updatedAt.mjs:8-17 | two runs on the same day leave the files as one run does |
| TouchUpdatedAt.TouchStep | scripts/touch-updatedAt.mjs:8-16 | one more gated, existing path touches that file and nothing else |
| TouchUpdatedAt.SkipStep | scripts/touch-updatedAt.mjs:9 | a path that fails the pattern or is missing changes nothing |
| TouchUpdatedAt.TouchOne | scripts/touch-updatedAt.mjs:9-16 | a gated, existing file is replaced by its touched form, otherwise nothing changes; it is written iff it parses to an object or an array |
| TouchUpdatedAt.TouchAll | scripts/touch-updatedAt.mjs:8-17 | the files afterwards are the touched files, and a path is written iff it is listed and rewritable |
| TouchUpdatedAt.Run | scripts/touch-updatedAt.mjs:4-17 | the whole script: only listed gated files change, and the written paths are exactly the listed, gated, rewritable ones |
| UiPatch.StripHashSlash | ui-patch.js:14 | a hash starting with `#/` loses exactly that prefix; any other hash is kept |
| UiPatch.GetRoute | ui-patch.js:13-16 | the route is always a known one: the stripped hash when it is known, `jeux` otherwise |
| UiPatch.RouteRoundTrip | ui-patch.js:13-16 | every known route is reached through `#/<route>` |
| UiPatch.GetRouteStable | ui-patch.js:13-16 | navigating to the route being shown keeps showing it |
| UiPatch.Show | ui-patch.js:9-12 | a view is hidden iff its `data-view` differs from the route; a link is `active` iff its `data-route` is the route, its other classes unchanged; only `hidden` of views and `classes` of links are written |
| UiPatch.Route | ui-patch.js:17 | on load and on `hashchange` exactly the view of the hash's route is visible and exactly its links are active; no other field of any element changes |
| UiPatch.TotalPages | ui-patch.js:32 | the page count is the fewest pages, at least one, that hold all cards |
| UiPatch.CardOnOnePage | ui-patch.js:40-42 | each card is on exactly one page, and that page exists |
| UiPatch.ShownCount | ui-patch.js:40-42 | every existing page shows at most three cards, and at least one when there are cards |
| UiPatch.ShowPage | ui-patch.js:42 | a card is displayed iff it lies in the page's window, and gets `display: none` otherwise; only the cards' `display` is written |
| UiPatch.Pager.constructor | ui-patch.js:29-37 | the pager starts on page 1, with its page count and its prev, next and info elements |
| UiPatch.Pager.Render | ui-patch.js:39-46 | the window of cards is shown, the info reads `page/total`, prev is disabled iff on page 1 and next iff on the last page; only those fields are written |
| UiPatch.PageInfoRoundTrip | ui-patch.js:43 | the info text splits at `/` into two decimal numerals that read back as the page and the page count |
| UiPatch.Pager.Prev | ui-patch.js:47 | goes back one page unless on the first, keeping the pager rendered and in bounds; writes only the fields `render` writes |
| UiPatch.Pager.Next | ui-patch.js:48 | goes on one page unless on the last, keeping the pager rendered and in bounds; writes only the fields `render` writes |
| UiPatch.Pagination.constructor | ui-patch.js:27 | no pager is initialised at first |
| UiPatch.Pagination.Init | ui-patch.js:52-61 | with grid and pager present and no pager yet, renders one on page 1; otherwise does nothing and leaves the grid's and pager's elements untouched; when it renders, it writes only the cards' `display`, the `info` text and the `disabled` flags of `prev` and `next`; never renders twice |
| UiPatch.CardBinds | ui-patch.js:98-112 | a non-empty string `url`, `image`, `title` or `excerpt` is bound as it is; a missing or falsy `url` gives `#` and a missing or falsy other field `''`; an item that is not an object gives the card `#`, `''`, `''`, `''` |
| UiPatch.FirstNull | ui-patch.js:90-98 | the index of the first `null` item, after only non-null items, or the length when there is none |
| UiPatch.Appended | ui-patch.js:84-115 | an array response appends one card per item before the first `null`; anything else appends nothing |
| UiPatch.CompletesAppendsAll | ui-patch.js:90-117 | an array without `null` items gets a card for every item |
| UiPatch.NoDuplicateLoad | ui-patch.js:77-82 | once a card was appended, the collection has a card, so a later load appends nothing |
| UiPatch.LoadJeux | ui-patch.js:73-121 | without a root nothing happens; with a card already present nothing is appended and the update is announced; otherwise the cards are appended and the update is announced iff the whole array was processed |
| Dom.Query | ui-patch.js:35-37 | the element found is the first one, in document order, carrying the attribute value; when none is found, no candidate carries it |
| Header.NonEmpty | assets/header.js:3 | the kept pieces are exactly the non-empty ones |
| Header.BasePrefix | assets/header.js:3-4 | the prefix is `/`, or one segment between two slashes |
| Header.HeaderUrl | assets/header.js:7 | the URL starts with the base prefix, ends with `partials/header.html` and is exactly as long as the two together, so it is their concatenation |
| Header.SegmentsAfterSlashes | assets/header.js:3 | leading slashes do not change the segments |
| Header.BasePrefixOf | assets/header.js:3-4 | the prefix is the path's first segment between slashes, however many slashes lead to it |
| Header.BasePrefixRoot | assets/header.js:4 | a path of slashes only has the prefix `/` |
| Header.BasePrefixRootFile | assets/header.js:3-7 | on a top-level page the header is requested under the page's own file name |
| Header.LastSegment | assets/header.js:19 | what follows the last slash has no slash |
| Header.Current | assets/header.js:19 | the current page name is never empty, has no slash and is lower-case |
| Header.CurrentOf | assets/header.js:19 | the current page is the lower-cased name after the last slash, `index.html` for a directory |
| Header.MarkedIgnoringCase | assets/header.js:19-22 | a link whose `href` is the file name, in any letter case, matches the current page |
| Header.Href | assets/header.js:21 | the link's `href` read in lower case: the result is lower-case, `''` when there is no `href`, and matches the `href` ignoring case |
| Header.MarkedIffMatches | assets/header.js:19-22 | a link without `href` is never marked; one with an `href` is marked iff that `href` is the current page in some letter case |
| Header.MarkActive | assets/header.js:20-23 | `active` is added to exactly the links whose lower-cased `href` is the current page; no class is removed and no other field is written |
| Header.FileLabel | assets/header.js:28-35 | a label exists exactly for the six listed pages, and each is a non-empty word of upper-case letters |
| Header.LabelTrimmed | assets/header.js:27-36 | the label never starts or ends with white space |
| Header.LabelFromFileName | assets/header.js:19-36 | without a meta label, a known page is labelled by its file name in any letter case |
| Header.Load | assets/header.js:1-39 | the header URL is requested; on failure nothing changes; on success the active link and the label are set, and no other field is written |
| Header.Decorate | assets/header.js:18-38 | the current page's links are marked active and the page label element shows the label; only the links' classes and the label's text are written |

## Left out

- File system, `fetch`, clocks and console output: they are parameters or are not modelled. In the model every file write succeeds.
- `JSON.stringify` formatting, key order, `path.join` normalisation and the creation of the output directory are not modelled.
- `cmpStr`: the French base-sensitivity collation is a caller-supplied key function. `localeCompare` on a non-string operand (it throws) is not modelled; the model compares `String(v)`.
- The sort is modelled as a stable insertion sort. The builders' contracts claim only "sorted and a permutation", not the engine's order among equal entries.
- Numbers are integers. Floating point, `NaN` and the decimal form of non-integers are not modelled. `String(n)` is modelled as every decimal digit; JavaScript switches to exponent form when the magnitude reaches 1e21.
- Strings are sequences of Unicode code points, and `<` compares code points. JavaScript compares UTF-16 code units; the two orders differ only between a character above U+FFFF and one in U+E000–U+FFFF. `toLowerCase` is modelled for ASCII letters only. `trim` removes the full ECMAScript white-space and line-terminator set.
- ContentIndex.BuildAll: the written games `index.json` is modelled as the value it holds, not as text that `JSON.stringify` writes and `JSON.parse` reads back.
- ContentIndex.LinkGameReadsGame: a non-string truthy `gameName` or `game` (a number, an object) makes `pathToSlug` throw in the script. The model treats it as `''`.
- The `mapByFile[current]` lookup in `assets/header.js` also finds inherited object properties such as `constructor`. The model finds only the six listed files.
- HasCard: the collection root is modelled as its list of children, each either a card or not, so `root.querySelector('.game-card')` becomes "some child is a `GameCard`". A child that only holds a `.game-card` deeper down must be given as a `GameCard`; the markup inside a child is not modelled.
- Header fragment injection, `insertAdjacentHTML` and template cloning are not modelled. Every appended node counts as a `.game-card`; for the template branch that holds only when the page's `tpl-game-card` markup is a `.game-card`. A card is modelled by its four bound values. The fallback markup's `alt` attribute and HTML escaping are not modelled.
- Event wiring (`DOMContentLoaded`, `hashchange`, `click`, `content:updated`) is not modelled: each handler is a method for the caller to invoke. Asynchrony and concurrent handlers are not modelled.
- `loader.cms.js` and `assets/guide-checklist.js` are not part of this model.
