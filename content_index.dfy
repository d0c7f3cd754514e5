/**
 * The offline content index builder (`scripts/build-content-index.mjs`).
 *
 * Each collection directory (games, builds, guides, tools) holds one JSON
 * file per entity; the builder turns the files of a collection into one
 * record each, enriches builds, guides and tools with their parent game's
 * name and status, sorts the records and wraps them as `{items: [...]}`.
 *
 * The file system is a parameter: a directory is its listing (None when
 * `readdir` fails) and the parse result of each file (None when reading
 * or `JSON.parse` fails). The French collation behind `cmpStr` is a
 * parameter too: `coll` maps a string to its collation key, and `cmpStr`
 * compares keys lexicographically.
 */
module ContentIndex {
  import opened Wrappers
  import opened Text
  import opened Json
  import opened Sorting

  // ---------------------------------------------------------------------
  // Directories
  // ---------------------------------------------------------------------

  datatype Dir = Dir(listing: Option<seq<string>>, files: map<string, Option<Value>>)

  datatype Content = Content(games: Dir, builds: Dir, guides: Dir, tools: Dir)

  /** `readJSON(dir/name)`: None when the file is missing, unreadable or not JSON. */
  function ReadJson(dir: Dir, name: string): Option<Value> {
    if name in dir.files then dir.files[name] else None
  }

  /** The files that `listJSON` keeps. */
  predicate IsEntryFile(f: string) {
    EndsWith(f, ".json") && f != "index.json"
  }

  function FilterEntries(names: seq<string>): (r: seq<string>)
    ensures forall f :: multiset(r)[f] == if IsEntryFile(f) then multiset(names)[f] else 0
  {
    if names == [] then []
    else
      assert names == [names[0]] + names[1..];
      if IsEntryFile(names[0]) then [names[0]] + FilterEntries(names[1..])
      else FilterEntries(names[1..])
  }

  /** `listJSON(dir)`: the listed names ending in `.json`, except `index.json`; nothing if the directory cannot be read. */
  function ListJson(listing: Option<seq<string>>): (r: seq<string>)
    ensures listing.None? ==> r == []
    ensures forall f :: f in r ==> IsEntryFile(f)
    ensures listing.Some? ==> forall f :: f in r <==> f in listing.value && IsEntryFile(f)
    ensures listing.Some? ==> forall f :: multiset(r)[f] == if IsEntryFile(f) then multiset(listing.value)[f] else 0
  {
    if listing.None? then []
    else
      var r := FilterEntries(listing.value);
      assert forall f :: f in r <==> multiset(r)[f] > 0;
      r
  }

  /** A listing with no repeated name (as `readdir` gives) yields entry files without repetition. */
  lemma ListJsonDistinct(names: seq<string>)
    requires NoRepeats(names)
    ensures var r := ListJson(Some(names));
      forall i, j :: 0 <= i < j < |r| ==> r[i] != r[j]
  {
    var r := ListJson(Some(names));
    forall i, j | 0 <= i < j < |r| ensures r[i] != r[j] {
      TwoPositions(r, i, j);
      CountAtMostOne(names, r[i]);
    }
  }

  /** `fileSlug(f)`: `f` without its trailing `.json`. */
  function FileSlug(f: string): (slug: string)
    ensures EndsWith(f, ".json") ==> slug + ".json" == f
    ensures !EndsWith(f, ".json") ==> slug == f
  {
    if EndsWith(f, ".json") then f[..|f| - 5] else f
  }

  /** Distinct entry files have distinct slugs. */
  lemma FileSlugInjective(f: string, g: string)
    requires EndsWith(f, ".json") && EndsWith(g, ".json")
    requires FileSlug(f) == FileSlug(g)
    ensures f == g
  {
    assert f == FileSlug(f) + ".json";
    assert g == FileSlug(g) + ".json";
  }

  // ---------------------------------------------------------------------
  // pathToSlug
  // ---------------------------------------------------------------------

  /** Position just after the last `/` of `s`, or 0 if there is none. */
  function AfterLastSlash(s: string): (k: nat)
    ensures k <= |s|
    ensures forall i :: k <= i < |s| ==> s[i] != '/'
    ensures k > 0 ==> s[k - 1] == '/'
  {
    if s == [] then 0
    else if s[|s| - 1] == '/' then |s|
    else AfterLastSlash(s[..|s| - 1])
  }

  /**
   * The capture group of `/content\/games\/([^/]+)\.json$/i` in `p`: the
   * non-empty, slash-free name between a case-insensitive `content/games/`
   * and a case-insensitive `.json` that ends `p`.
   */
  function GamePathMatch(p: string): Option<string> {
    if |p| < 5 || !MatchesIgnoringCase(p[|p| - 5..], ".json") then None
    else
      var body := p[..|p| - 5];
      var k := AfterLastSlash(body);
      if k == |body| || k < 14 || !MatchesIgnoringCase(body[k - 14..k], "content/games/") then None
      else Some(body[k..])
  }

  /** `p` ends in `<content/games/ any case> x <.json any case>`, with `x` non-empty and slash-free. */
  predicate IsGamePath(p: string, x: string) {
    && x != [] && '/' !in x
    && |p| >= |x| + 19
    && MatchesIgnoringCase(p[|p| - 5..], ".json")
    && p[|p| - 5 - |x|..|p| - 5] == x
    && MatchesIgnoringCase(p[|p| - 19 - |x|..|p| - 5 - |x|], "content/games/")
  }

  /**
   * `pathToSlug(p)`: `''` for `''`; the game name of a path ending in
   * `content/games/<name>.json`; any other string unchanged.
   */
  function PathToSlug(p: string): (slug: string)
    ensures p == "" ==> slug == ""
    ensures slug == p || IsGamePath(p, slug)
  {
    if p == "" then ""
    else
      match GamePathMatch(p)
      case Some(x) =>
        var body := p[..|p| - 5];
        assert body[|body| - |x|..] == x;
        x
      case None => p
  }

  /** Every path of the game-file shape is reduced to its game name. */
  lemma PathToSlugOfGamePath(p: string, x: string)
    requires IsGamePath(p, x)
    ensures PathToSlug(p) == x
  {
    var body := p[..|p| - 5];
    var k := AfterLastSlash(body);
    var j := |body| - |x|;
    assert body[j - 1] == p[|p| - 19 - |x|..|p| - 5 - |x|][13];
    assert Lower(p[|p| - 19 - |x|..|p| - 5 - |x|])[13] == '/';
    assert body[j - 1] == '/';
    assert forall i :: j <= i < |body| ==> body[i] == x[i - j];
    assert k == j;
    assert body[k - 14..k] == p[|p| - 19 - |x|..|p| - 5 - |x|];
  }

  /** Normalising twice is normalising once, so `resolveGameMeta`'s own call changes nothing. */
  lemma PathToSlugIdempotent(p: string)
    ensures PathToSlug(PathToSlug(p)) == PathToSlug(p)
  {
    var s := PathToSlug(p);
    if s != p {
      assert IsGamePath(p, s);
      if |s| >= 5 {
        var body := s[..|s| - 5];
        assert forall i :: 0 <= i < |body| ==> body[i] != '/' by {
          forall i | 0 <= i < |body| ensures body[i] != '/' {
            assert body[i] == s[i];
          }
        }
        assert AfterLastSlash(body) == 0;
      }
      assert GamePathMatch(s) == None;
    }
  }

  // ---------------------------------------------------------------------
  // Games map and parent-game metadata
  // ---------------------------------------------------------------------

  datatype GameMeta = GameMeta(slug: string, name: Value, status: Value, cover: Value)

  /** A string field with the default `''` (`data.k || ''`). */
  function StrField(data: map<string, Value>, k: string): Value {
    Or(Get(data, k), Str(""))
  }

  /** The game metadata for `slug` taken from the parse result of its file; defaults `''`, `'actif'`, `''`. */
  function MetaOf(slug: string, doc: Option<Value>): (gm: GameMeta)
    ensures gm.slug == slug
    ensures Truthy(gm.status)
    ensures Fields(doc) == map[] ==> gm == GameMeta(slug, Str(""), Str("actif"), Str(""))
  {
    var data := Fields(doc);
    GameMeta(slug, StrField(data, "name"), Or(Get(data, "status"), Str("actif")), StrField(data, "cover"))
  }

  /** `resolveGameMeta(ref)`: reads `games/<slug>.json` directly. */
  function Resolve(games: Dir, ref: string): (gm: GameMeta)
    ensures gm.slug == PathToSlug(ref) && Truthy(gm.status)
  {
    var slug := PathToSlug(ref);
    MetaOf(slug, ReadJson(games, slug + ".json"))
  }

  /** A game named by the path of its file and a game named by its slug resolve alike. */
  lemma ResolvePathOrSlug(games: Dir, p: string, x: string)
    requires IsGamePath(p, x)
    ensures Resolve(games, p) == Resolve(games, x)
  {
    PathToSlugOfGamePath(p, x);
    PathToSlugIdempotent(p);
  }

  /** Every entry of `m` is what reading that game's file directly gives. */
  ghost predicate CacheAgrees(m: map<string, GameMeta>, games: Dir) {
    forall s :: s in m ==> m[s] == MetaOf(s, ReadJson(games, s + ".json"))
  }

  /** `loadGamesMap()`: one entry per listed game file, keyed by its slug. */
  method LoadGamesMap(games: Dir) returns (m: map<string, GameMeta>)
    ensures m.Keys == Slugs(ListJson(games.listing))
    ensures CacheAgrees(m, games)
  {
    var files := ListJson(games.listing);
    m := map[];
    for i := 0 to |files|
      invariant m.Keys == Slugs(files[..i])
      invariant CacheAgrees(m, games)
    {
      var f := files[i];
      var slug := FileSlug(f);
      GamesMapStep(games, files, i, m);
      m := m[slug := MetaOf(slug, ReadJson(games, f))];
    }
    assert files[..|files|] == files;
  }

  /** One iteration of `loadGamesMap` adds the next file's slug and keeps every entry a direct read. */
  lemma GamesMapStep(games: Dir, files: seq<string>, i: nat, m: map<string, GameMeta>)
    requires i < |files| && forall f :: f in files ==> IsEntryFile(f)
    requires m.Keys == Slugs(files[..i]) && CacheAgrees(m, games)
    ensures var slug := FileSlug(files[i]);
      var next := m[slug := MetaOf(slug, ReadJson(games, files[i]))];
      next.Keys == Slugs(files[..i + 1]) && CacheAgrees(next, games)
  {
    var f := files[i];
    assert IsEntryFile(f) by {
      assert f in files;
    }
    assert FileSlug(f) + ".json" == f;
    SlugsAppend(files[..i], f);
    assert files[..i + 1] == files[..i] + [f];
  }

  /** The slugs of some file names. */
  function Slugs(files: seq<string>): set<string> {
    set f | f in files :: FileSlug(f)
  }

  lemma SlugsAppend(files: seq<string>, f: string)
    ensures Slugs(files + [f]) == Slugs(files) + {FileSlug(f)}
  {
    assert forall g :: g in files + [f] <==> g in files || g == f;
  }

  /** `gamesMap.get(slug) || resolveGameMeta(slug)`. */
  function LookupGame(m: map<string, GameMeta>, games: Dir, slug: string): (gm: GameMeta)
    ensures CacheAgrees(m, games) && PathToSlug(slug) == slug ==> gm == Resolve(games, slug)
  {
    if slug in m then m[slug] else Resolve(games, slug)
  }

  /** The games map is a pure cache: looking a normalised slug up gives what reading its file gives. */
  lemma LookupIsRead(m: map<string, GameMeta>, games: Dir, ref: string)
    requires CacheAgrees(m, games)
    ensures var slug := PathToSlug(ref);
      LookupGame(m, games, slug) == MetaOf(slug, ReadJson(games, slug + ".json"))
  {
    PathToSlugIdempotent(ref);
  }

  /** The fields a build, guide or tool inherits from its parent game. */
  datatype GameLink = GameLink(gameName: string, gameDisplayName: Value, gameStatus: Value)

  /** The raw parent reference: `data.gameName || data.game || ''`. */
  function GameRef(data: map<string, Value>): (ref: string)
    ensures Get(data, "gameName").Some? && Truthy(data["gameName"]) ==>
      ref == (if data["gameName"].Str? then data["gameName"].s else "")
    ensures !(Get(data, "gameName").Some? && Truthy(data["gameName"])) && Get(data, "game").Some? && Truthy(data["game"]) ==>
      ref == (if data["game"].Str? then data["game"].s else "")
    ensures ref != "" ==> Get(data, "gameName") == Some(Str(ref)) || Get(data, "game") == Some(Str(ref))
  {
    var v := Or(Get(data, "gameName"), Or(Get(data, "game"), Str("")));
    if v.Str? then v.s else ""
  }

  /** The enrichment step shared by builds, guides and tools. */
  function LinkGame(data: map<string, Value>, m: map<string, GameMeta>, games: Dir): (link: GameLink)
    ensures Truthy(link.gameStatus)
    ensures CacheAgrees(m, games) ==> link.gameName == PathToSlug(GameRef(data))
  {
    var slug := PathToSlug(GameRef(data));
    PathToSlugIdempotent(GameRef(data));
    var gm := LookupGame(m, games, slug);
    GameLink(if gm.slug != "" then gm.slug else slug, Or(Some(gm.name), Str("")), Or(Some(gm.status), Str("actif")))
  }

  /**
   * Enrichment reads the parent game: the link names the normalised slug and
   * carries the game file's `name` (default `''`) and `status` (default `'actif'`).
   */
  lemma LinkGameReadsGame(data: map<string, Value>, m: map<string, GameMeta>, games: Dir)
    requires CacheAgrees(m, games)
    ensures var slug := PathToSlug(GameRef(data));
      var g := Fields(ReadJson(games, slug + ".json"));
      LinkGame(data, m, games) == GameLink(slug, StrField(g, "name"), Or(Get(g, "status"), Str("actif")))
  {
    LookupIsRead(m, games, GameRef(data));
    var slug := PathToSlug(GameRef(data));
    var g := Fields(ReadJson(games, slug + ".json"));
    OrIdempotent(Get(g, "status"), Str("actif"));
  }

  /** A parent game whose file has neither `name` nor `status` gives `gameDisplayName ''` and `gameStatus 'actif'`. */
  lemma LinkNamelessGame(data: map<string, Value>, m: map<string, GameMeta>, games: Dir, slug: string)
    requires CacheAgrees(m, games) && PathToSlug(GameRef(data)) == slug
    requires var g := Fields(ReadJson(games, slug + ".json"));
      "name" !in g && "status" !in g
    ensures LinkGame(data, m, games) == GameLink(slug, Str(""), Str("actif"))
  {
    LinkGameReadsGame(data, m, games);
  }

  /** A parent game whose file is missing or unusable gives `gameDisplayName ''` and `gameStatus 'actif'`. */
  lemma LinkMissingGame(data: map<string, Value>, m: map<string, GameMeta>, games: Dir)
    requires CacheAgrees(m, games)
    requires Fields(ReadJson(games, PathToSlug(GameRef(data)) + ".json")) == map[]
    ensures LinkGame(data, m, games) == GameLink(PathToSlug(GameRef(data)), Str(""), Str("actif"))
  {
    LinkGameReadsGame(data, m, games);
  }

  /** The result of enrichment does not depend on the cache: a cached map and the empty map agree. */
  lemma LinkGameCacheFree(data: map<string, Value>, m: map<string, GameMeta>, games: Dir)
    requires CacheAgrees(m, games)
    ensures LinkGame(data, m, games) == LinkGame(data, map[], games)
  {
    LinkGameReadsGame(data, m, games);
    LinkGameReadsGame(data, map[], games);
  }

  // ---------------------------------------------------------------------
  // pickExtras
  // ---------------------------------------------------------------------

  const ExtraKeys: seq<string> := ["items", "itemList", "tags", "urls", "links", "body", "bodyHtml", "bodyText"]

  /** The allow-listed pass-through fields of `data`, as a value. */
  function Extras(data: map<string, Value>): map<string, Value> {
    map k | k in ExtraKeys && k in data && data[k] != Null :: data[k]
  }

  /** `pickExtras(src)`: copies each allow-listed key that `src` has with a non-null value, and nothing else. */
  method PickExtras(src: map<string, Value>) returns (out: map<string, Value>)
    ensures forall k :: k in out <==> k in ExtraKeys && k in src && src[k] != Null
    ensures forall k :: k in out ==> out[k] == src[k]
    ensures out == Extras(src)
  {
    out := map[];
    for i := 0 to |ExtraKeys|
      invariant forall k :: k in out <==> k in ExtraKeys[..i] && k in src && src[k] != Null
      invariant forall k :: k in out ==> out[k] == src[k]
    {
      var k := ExtraKeys[i];
      if k in src && src[k] != Null {
        out := out[k := src[k]];
      }
    }
    assert out.Keys == Extras(src).Keys;
  }

  // ---------------------------------------------------------------------
  // Records
  // ---------------------------------------------------------------------

  datatype Game = Game(
    slug: string, name: Value, status: Value, cover: Value, short: Value, publisher: Value,
    extras: map<string, Value>)

  datatype Build = Build(
    slug: string, title: Value, tier: Value, version: Value, summary: Value, cover: Value,
    updatedAt: Value, difficulty: Value, difficultyStars: Value, cost: Value,
    game: GameLink, extras: map<string, Value>)

  datatype Guide = Guide(
    slug: string, title: Value, resource: Value, route: Value, cover: Value, date: Value,
    game: GameLink, extras: map<string, Value>)

  datatype Tool = Tool(
    slug: string, title: Value, kind: Value, url: Value, notes: Value, cover: Value,
    game: GameLink, extras: map<string, Value>)

  /** A written index: `{items: [...]}`. */
  datatype Index<T> = Index(items: seq<T>)

  /** The record `buildGames` pushes for a game file with slug `slug` and fields `data`. */
  function GameOf(slug: string, data: map<string, Value>, extras: map<string, Value>): Game {
    Game(slug, StrField(data, "name"), Or(Get(data, "status"), Str("actif")), StrField(data, "cover"),
         StrField(data, "short"), StrField(data, "publisher"), extras)
  }

  function BuildOf(slug: string, data: map<string, Value>, link: GameLink, extras: map<string, Value>): Build {
    Build(slug, StrField(data, "title"), StrField(data, "tier"), StrField(data, "version"), StrField(data, "summary"),
          StrField(data, "cover"), StrField(data, "updatedAt"), StrField(data, "difficulty"),
          OrNull(Get(data, "difficultyStars")), OrNull(Get(data, "cost")), link, extras)
  }

  function GuideOf(slug: string, data: map<string, Value>, link: GameLink, extras: map<string, Value>): Guide {
    Guide(slug, StrField(data, "title"), StrField(data, "resource"), StrField(data, "route"), StrField(data, "cover"),
          StrField(data, "date"), link, extras)
  }

  function ToolOf(slug: string, data: map<string, Value>, link: GameLink, extras: map<string, Value>): Tool {
    Tool(slug, StrField(data, "title"), StrField(data, "kind"), StrField(data, "url"), StrField(data, "notes"),
         StrField(data, "cover"), link, extras)
  }

  /** The extras of a record: allow-listed keys with non-null values. */
  predicate ExtrasOk(extras: map<string, Value>) {
    forall k :: k in extras ==> k in ExtraKeys && extras[k] != Null
  }

  function GameRecord(f: string, doc: Option<Value>): (g: Game)
    ensures g.slug == FileSlug(f) && Truthy(g.status) && ExtrasOk(g.extras)
  {
    var data := Fields(doc);
    GameOf(FileSlug(f), data, Extras(data))
  }

  function BuildRecord(f: string, doc: Option<Value>, m: map<string, GameMeta>, games: Dir): (r: Build)
    ensures r.slug == FileSlug(f) && Truthy(r.game.gameStatus) && ExtrasOk(r.extras)
    ensures CacheAgrees(m, games) ==> r.game.gameName == PathToSlug(GameRef(Fields(doc)))
  {
    var data := Fields(doc);
    BuildOf(FileSlug(f), data, LinkGame(data, m, games), Extras(data))
  }

  function GuideRecord(f: string, doc: Option<Value>, m: map<string, GameMeta>, games: Dir): (r: Guide)
    ensures r.slug == FileSlug(f) && Truthy(r.game.gameStatus) && ExtrasOk(r.extras)
    ensures CacheAgrees(m, games) ==> r.game.gameName == PathToSlug(GameRef(Fields(doc)))
  {
    var data := Fields(doc);
    GuideOf(FileSlug(f), data, LinkGame(data, m, games), Extras(data))
  }

  function ToolRecord(f: string, doc: Option<Value>, m: map<string, GameMeta>, games: Dir): (r: Tool)
    ensures r.slug == FileSlug(f) && Truthy(r.game.gameStatus) && ExtrasOk(r.extras)
    ensures CacheAgrees(m, games) ==> r.game.gameName == PathToSlug(GameRef(Fields(doc)))
  {
    var data := Fields(doc);
    ToolOf(FileSlug(f), data, LinkGame(data, m, games), Extras(data))
  }

  lemma PrefixSnoc<T>(s: seq<T>, i: nat)
    requires i < |s|
    ensures s[..i + 1] == s[..i] + [s[i]]
  {
  }

  /** The records of a collection, one per listed entry file, in listing order. */
  function GameRecords(dir: Dir): (recs: seq<Game>)
    ensures var files := ListJson(dir.listing);
      |recs| == |files| && forall i :: 0 <= i < |files| ==> recs[i].slug == FileSlug(files[i])
  {
    var files := ListJson(dir.listing);
    seq(|files|, i requires 0 <= i < |files| => GameRecord(files[i], ReadJson(dir, files[i])))
  }

  function BuildRecords(dir: Dir, m: map<string, GameMeta>, games: Dir): (recs: seq<Build>)
    ensures var files := ListJson(dir.listing);
      |recs| == |files| && forall i :: 0 <= i < |files| ==> recs[i].slug == FileSlug(files[i])
  {
    var files := ListJson(dir.listing);
    seq(|files|, i requires 0 <= i < |files| => BuildRecord(files[i], ReadJson(dir, files[i]), m, games))
  }

  function GuideRecords(dir: Dir, m: map<string, GameMeta>, games: Dir): (recs: seq<Guide>)
    ensures var files := ListJson(dir.listing);
      |recs| == |files| && forall i :: 0 <= i < |files| ==> recs[i].slug == FileSlug(files[i])
  {
    var files := ListJson(dir.listing);
    seq(|files|, i requires 0 <= i < |files| => GuideRecord(files[i], ReadJson(dir, files[i]), m, games))
  }

  function ToolRecords(dir: Dir, m: map<string, GameMeta>, games: Dir): (recs: seq<Tool>)
    ensures var files := ListJson(dir.listing);
      |recs| == |files| && forall i :: 0 <= i < |files| ==> recs[i].slug == FileSlug(files[i])
  {
    var files := ListJson(dir.listing);
    seq(|files|, i requires 0 <= i < |files| => ToolRecord(files[i], ReadJson(dir, files[i]), m, games))
  }

  /** A field read as `data.k || d`: a truthy value is kept, a missing or falsy one becomes `d`. */
  predicate DefaultsTo(data: map<string, Value>, k: string, v: Value, d: Value) {
    && (k in data && Truthy(data[k]) ==> v == data[k])
    && (!(k in data && Truthy(data[k])) ==> v == d)
  }

  /** A field read as `data.k ?? null`: any present value is kept, `0`, `false` and `''` included; a missing one becomes `null`. */
  predicate KeptOrNull(data: map<string, Value>, k: string, v: Value) {
    && (k in data ==> v == data[k])
    && (k !in data ==> v == Null)
  }

  /** The fields of a game record, for any parse result of its file. */
  lemma GameDefaults(f: string, doc: Option<Value>)
    ensures var data, g := Fields(doc), GameRecord(f, doc);
      && DefaultsTo(data, "name", g.name, Str("")) && DefaultsTo(data, "status", g.status, Str("actif"))
      && DefaultsTo(data, "cover", g.cover, Str("")) && DefaultsTo(data, "short", g.short, Str(""))
      && DefaultsTo(data, "publisher", g.publisher, Str("")) && g.extras == Extras(data)
  {
  }

  /** The fields of a build record, for any parse result of its file. */
  lemma BuildDefaults(f: string, doc: Option<Value>, m: map<string, GameMeta>, games: Dir)
    ensures var data, b := Fields(doc), BuildRecord(f, doc, m, games);
      && DefaultsTo(data, "title", b.title, Str("")) && DefaultsTo(data, "tier", b.tier, Str(""))
      && DefaultsTo(data, "version", b.version, Str("")) && DefaultsTo(data, "summary", b.summary, Str(""))
      && DefaultsTo(data, "cover", b.cover, Str("")) && DefaultsTo(data, "updatedAt", b.updatedAt, Str(""))
      && DefaultsTo(data, "difficulty", b.difficulty, Str(""))
      && KeptOrNull(data, "difficultyStars", b.difficultyStars) && KeptOrNull(data, "cost", b.cost)
      && b.extras == Extras(data)
  {
  }

  /** The fields of a guide record, for any parse result of its file. */
  lemma GuideDefaults(f: string, doc: Option<Value>, m: map<string, GameMeta>, games: Dir)
    ensures var data, g := Fields(doc), GuideRecord(f, doc, m, games);
      && DefaultsTo(data, "title", g.title, Str("")) && DefaultsTo(data, "resource", g.resource, Str(""))
      && DefaultsTo(data, "route", g.route, Str("")) && DefaultsTo(data, "cover", g.cover, Str(""))
      && DefaultsTo(data, "date", g.date, Str("")) && g.extras == Extras(data)
  {
  }

  /** The fields of a tool record, for any parse result of its file. */
  lemma ToolDefaults(f: string, doc: Option<Value>, m: map<string, GameMeta>, games: Dir)
    ensures var data, t := Fields(doc), ToolRecord(f, doc, m, games);
      && DefaultsTo(data, "title", t.title, Str("")) && DefaultsTo(data, "kind", t.kind, Str(""))
      && DefaultsTo(data, "url", t.url, Str("")) && DefaultsTo(data, "notes", t.notes, Str(""))
      && DefaultsTo(data, "cover", t.cover, Str("")) && t.extras == Extras(data)
  {
  }

  /** A record's defaults: an unusable file gives `''` strings, status `'actif'`, `null` stars and cost, no extras. */
  lemma EmptyBuildDefaults(f: string, doc: Option<Value>, m: map<string, GameMeta>, games: Dir)
    requires CacheAgrees(m, games)
    requires Fields(doc) == map[]
    ensures var b := BuildRecord(f, doc, m, games);
      && b.title == b.tier == b.version == b.summary == b.cover == b.updatedAt == b.difficulty == Str("")
      && b.difficultyStars == Null && b.cost == Null && b.extras == map[]
      && b.game.gameName == ""
  {
    LinkGameReadsGame(Fields(doc), m, games);
  }

  // ---------------------------------------------------------------------
  // Comparators
  // ---------------------------------------------------------------------

  /** `cmpStr(a, b)`: lexicographic comparison of collation keys. */
  function CmpStr(coll: string -> seq<int>, a: Value, b: Value): (c: int)
    ensures -1 <= c <= 1
    ensures c == 0 <==> coll(ToText(a)) == coll(ToText(b))
    ensures c == -LexCmp(coll(ToText(b)), coll(ToText(a)))
  {
    LexCmpZero(coll(ToText(a)), coll(ToText(b)));
    LexCmpFlip(coll(ToText(a)), coll(ToText(b)));
    LexCmp(coll(ToText(a)), coll(ToText(b)))
  }

  /** `(x || '').toString()`. */
  function DateText(v: Value): string {
    if Truthy(v) then ToText(v) else ""
  }

  /** `cmpDateDesc(a, b)`: 1 if `a < b`, -1 if `a > b`, 0 otherwise, on the string forms. */
  function CmpDateDesc(a: Value, b: Value): (c: int)
    ensures var aa, bb := DateText(a), DateText(b);
      && (c == 1 <==> Less(aa, bb))
      && (c == -1 <==> Less(bb, aa))
      && (c == 0 <==> aa == bb)
  {
    var aa := DateText(a);
    var bb := DateText(b);
    LessTrichotomy(aa, bb);
    if Less(aa, bb) then 1 else if Less(bb, aa) then -1 else 0
  }

  /** The descending date comparison is the ascending comparison of the swapped strings, by code point. */
  lemma CmpDateDescIsLex(a: Value, b: Value)
    ensures CmpDateDesc(a, b) == LexCmp(Units(DateText(b)), Units(DateText(a)))
  {
    LexCmpFlip(Units(DateText(a)), Units(DateText(b)));
    LexCmpZero(Units(DateText(a)), Units(DateText(b)));
  }

  /** `c1 !== 0 ? c1 : c2`. */
  function Then(c1: int, c2: int): int {
    if c1 != 0 then c1 else c2
  }

  /** A lexicographic comparison followed by another as tie-break is transitive. */
  lemma ThenTransitive(ka: seq<int>, kb: seq<int>, kc: seq<int>, ta: seq<int>, tb: seq<int>, tc: seq<int>)
    requires Then(LexCmp(kb, ka), LexCmp(ta, tb)) <= 0
    requires Then(LexCmp(kc, kb), LexCmp(tb, tc)) <= 0
    ensures Then(LexCmp(kc, ka), LexCmp(ta, tc)) <= 0
  {
    LexCmpTransitive(kc, kb, ka);
    LexCmpZero(kc, ka);
    if ka == kc {
      LexCmpFlip(ka, kb);
      LexCmpZero(ka, kb);
      LexCmpZero(kb, ka);
      LexCmpTransitive(ta, tb, tc);
    }
  }

  function GameLe(coll: string -> seq<int>): (Game, Game) -> bool {
    (a: Game, b: Game) => CmpStr(coll, a.name, b.name) <= 0
  }

  function BuildLe(coll: string -> seq<int>): (Build, Build) -> bool {
    (a: Build, b: Build) => Then(CmpDateDesc(a.updatedAt, b.updatedAt), CmpStr(coll, a.title, b.title)) <= 0
  }

  function GuideLe(coll: string -> seq<int>): (Guide, Guide) -> bool {
    (a: Guide, b: Guide) => Then(CmpDateDesc(a.date, b.date), CmpStr(coll, a.title, b.title)) <= 0
  }

  function ToolLe(coll: string -> seq<int>): (Tool, Tool) -> bool {
    (a: Tool, b: Tool) => CmpStr(coll, a.title, b.title) <= 0
  }

  lemma GameLeIsPreorder(coll: string -> seq<int>)
    ensures TotalPreorder(GameLe(coll))
  {
    var le := GameLe(coll);
    forall a, b ensures le(a, b) || le(b, a) {
      LexCmpFlip(coll(ToText(a.name)), coll(ToText(b.name)));
    }
    forall a, b, c | le(a, b) && le(b, c) ensures le(a, c) {
      LexCmpTransitive(coll(ToText(a.name)), coll(ToText(b.name)), coll(ToText(c.name)));
    }
  }

  lemma ToolLeIsPreorder(coll: string -> seq<int>)
    ensures TotalPreorder(ToolLe(coll))
  {
    var le := ToolLe(coll);
    forall a, b ensures le(a, b) || le(b, a) {
      LexCmpFlip(coll(ToText(a.title)), coll(ToText(b.title)));
    }
    forall a, b, c | le(a, b) && le(b, c) ensures le(a, c) {
      LexCmpTransitive(coll(ToText(a.title)), coll(ToText(b.title)), coll(ToText(c.title)));
    }
  }

  /** Date descending, then title: total and transitive. */
  lemma DateThenTitleIsPreorder(da: Value, db: Value, ta: Value, tb: Value, coll: string -> seq<int>)
    ensures Then(CmpDateDesc(da, db), CmpStr(coll, ta, tb)) <= 0
         || Then(CmpDateDesc(db, da), CmpStr(coll, tb, ta)) <= 0
  {
    CmpDateDescIsLex(da, db);
    CmpDateDescIsLex(db, da);
    LexCmpFlip(Units(DateText(da)), Units(DateText(db)));
    LexCmpFlip(coll(ToText(ta)), coll(ToText(tb)));
  }

  lemma DateThenTitleTransitive(da: Value, db: Value, dc: Value, ta: Value, tb: Value, tc: Value,
                                coll: string -> seq<int>)
    requires Then(CmpDateDesc(da, db), CmpStr(coll, ta, tb)) <= 0
    requires Then(CmpDateDesc(db, dc), CmpStr(coll, tb, tc)) <= 0
    ensures Then(CmpDateDesc(da, dc), CmpStr(coll, ta, tc)) <= 0
  {
    CmpDateDescIsLex(da, db);
    CmpDateDescIsLex(db, dc);
    CmpDateDescIsLex(da, dc);
    ThenTransitive(Units(DateText(da)), Units(DateText(db)), Units(DateText(dc)),
                   coll(ToText(ta)), coll(ToText(tb)), coll(ToText(tc)));
  }

  lemma BuildLeIsPreorder(coll: string -> seq<int>)
    ensures TotalPreorder(BuildLe(coll))
  {
    var le := BuildLe(coll);
    forall a, b ensures le(a, b) || le(b, a) {
      DateThenTitleIsPreorder(a.updatedAt, b.updatedAt, a.title, b.title, coll);
    }
    forall a, b, c | le(a, b) && le(b, c) ensures le(a, c) {
      DateThenTitleTransitive(a.updatedAt, b.updatedAt, c.updatedAt, a.title, b.title, c.title, coll);
    }
  }

  lemma GuideLeIsPreorder(coll: string -> seq<int>)
    ensures TotalPreorder(GuideLe(coll))
  {
    var le := GuideLe(coll);
    forall a, b ensures le(a, b) || le(b, a) {
      DateThenTitleIsPreorder(a.date, b.date, a.title, b.title, coll);
    }
    forall a, b, c | le(a, b) && le(b, c) ensures le(a, c) {
      DateThenTitleTransitive(a.date, b.date, c.date, a.title, b.title, c.title, coll);
    }
  }

  /**
   * What a sorted builds index means: along the list `updatedAt` never
   * increases, and entries with the same `updatedAt` are in title order.
   */
  lemma BuildsOrder(items: seq<Build>, coll: string -> seq<int>, i: nat, j: nat)
    requires Sorted(items, BuildLe(coll))
    requires i < j < |items|
    ensures !Less(DateText(items[i].updatedAt), DateText(items[j].updatedAt))
    ensures (DateText(items[i].updatedAt) == DateText(items[j].updatedAt) ==>
               CmpStr(coll, items[i].title, items[j].title) <= 0)
  {
    assert BuildLe(coll)(items[i], items[j]);
  }

  /** The same for guides, on `date`. */
  lemma GuidesOrder(items: seq<Guide>, coll: string -> seq<int>, i: nat, j: nat)
    requires Sorted(items, GuideLe(coll))
    requires i < j < |items|
    ensures !Less(DateText(items[i].date), DateText(items[j].date))
    ensures (DateText(items[i].date) == DateText(items[j].date) ==>
               CmpStr(coll, items[i].title, items[j].title) <= 0)
  {
    assert GuideLe(coll)(items[i], items[j]);
  }

  // ---------------------------------------------------------------------
  // The four builders
  // ---------------------------------------------------------------------

  /** `buildGames()`: one record per game file, sorted by name. */
  method BuildGames(games: Dir, coll: string -> seq<int>) returns (index: Index<Game>)
    ensures multiset(index.items) == multiset(GameRecords(games))
    ensures Sorted(index.items, GameLe(coll))
    ensures games.listing.Some? && NoRepeats(games.listing.value) ==>
      OneItemPerFile(index.items, games.listing.value, (g: Game) => g.slug)
  {
    var items := GameItems(games);
    GameLeIsPreorder(coll);
    var sorted := SortBy(items, GameLe(coll));
    index := Index(sorted);
    if games.listing.Some? && NoRepeats(games.listing.value) {
      PermutationOneItemPerFile(index.items, GameRecords(games), games.listing.value, (g: Game) => g.slug);
    }
  }

  /** The loop of `buildGames`: one record per entry file, in listing order. */
  method GameItems(games: Dir) returns (items: seq<Game>)
    ensures items == GameRecords(games)
  {
    var recs := GameRecords(games);
    var files := ListJson(games.listing);
    items := [];
    for i := 0 to |files|
      invariant items == recs[..i]
    {
      var f := files[i];
      var data := Fields(ReadJson(games, f));
      var slug := FileSlug(f);
      var extras := PickExtras(data);
      var item := GameOf(slug, data, extras);
      assert item == GameRecord(f, ReadJson(games, f)) == recs[i];
      PrefixSnoc(recs, i);
      items := items + [item];
    }
    assert recs[..|files|] == recs;
  }

  /** `buildBuilds(gamesMap)`: one enriched record per build file, newest first, then by title. */
  method BuildBuilds(builds: Dir, gamesMap: map<string, GameMeta>, games: Dir, coll: string -> seq<int>)
    returns (index: Index<Build>)
    ensures multiset(index.items) == multiset(BuildRecords(builds, gamesMap, games))
    ensures Sorted(index.items, BuildLe(coll))
    ensures builds.listing.Some? && NoRepeats(builds.listing.value) ==>
      OneItemPerFile(index.items, builds.listing.value, (r: Build) => r.slug)
  {
    var items := BuildItems(builds, gamesMap, games);
    BuildLeIsPreorder(coll);
    var sorted := SortBy(items, BuildLe(coll));
    index := Index(sorted);
    if builds.listing.Some? && NoRepeats(builds.listing.value) {
      PermutationOneItemPerFile(index.items, BuildRecords(builds, gamesMap, games), builds.listing.value, (r: Build) => r.slug);
    }
  }

  /** The loop of `buildBuilds`: one record per entry file, in listing order. */
  method BuildItems(builds: Dir, gamesMap: map<string, GameMeta>, games: Dir) returns (items: seq<Build>)
    ensures items == BuildRecords(builds, gamesMap, games)
  {
    var recs := BuildRecords(builds, gamesMap, games);
    var files := ListJson(builds.listing);
    items := [];
    for i := 0 to |files|
      invariant items == recs[..i]
    {
      var f := files[i];
      var data := Fields(ReadJson(builds, f));
      var slug := FileSlug(f);
      var link := LinkGame(data, gamesMap, games);
      var extras := PickExtras(data);
      var item := BuildOf(slug, data, link, extras);
      assert item == BuildRecord(f, ReadJson(builds, f), gamesMap, games) == recs[i];
      PrefixSnoc(recs, i);
      items := items + [item];
    }
    assert recs[..|files|] == recs;
  }

  /** `buildGuides(gamesMap)`: one enriched record per guide file, newest `date` first, then by title. */
  method BuildGuides(guides: Dir, gamesMap: map<string, GameMeta>, games: Dir, coll: string -> seq<int>)
    returns (index: Index<Guide>)
    ensures multiset(index.items) == multiset(GuideRecords(guides, gamesMap, games))
    ensures Sorted(index.items, GuideLe(coll))
    ensures guides.listing.Some? && NoRepeats(guides.listing.value) ==>
      OneItemPerFile(index.items, guides.listing.value, (r: Guide) => r.slug)
  {
    var items := GuideItems(guides, gamesMap, games);
    GuideLeIsPreorder(coll);
    var sorted := SortBy(items, GuideLe(coll));
    index := Index(sorted);
    if guides.listing.Some? && NoRepeats(guides.listing.value) {
      PermutationOneItemPerFile(index.items, GuideRecords(guides, gamesMap, games), guides.listing.value, (r: Guide) => r.slug);
    }
  }

  /** The loop of `buildGuides`: one record per entry file, in listing order. */
  method GuideItems(guides: Dir, gamesMap: map<string, GameMeta>, games: Dir) returns (items: seq<Guide>)
    ensures items == GuideRecords(guides, gamesMap, games)
  {
    var recs := GuideRecords(guides, gamesMap, games);
    var files := ListJson(guides.listing);
    items := [];
    for i := 0 to |files|
      invariant items == recs[..i]
    {
      var f := files[i];
      var data := Fields(ReadJson(guides, f));
      var slug := FileSlug(f);
      var link := LinkGame(data, gamesMap, games);
      var extras := PickExtras(data);
      var item := GuideOf(slug, data, link, extras);
      assert item == GuideRecord(f, ReadJson(guides, f), gamesMap, games) == recs[i];
      PrefixSnoc(recs, i);
      items := items + [item];
    }
    assert recs[..|files|] == recs;
  }

  /** `buildTools(gamesMap)`: one enriched record per tool file, by title. */
  method BuildTools(tools: Dir, gamesMap: map<string, GameMeta>, games: Dir, coll: string -> seq<int>)
    returns (index: Index<Tool>)
    ensures multiset(index.items) == multiset(ToolRecords(tools, gamesMap, games))
    ensures Sorted(index.items, ToolLe(coll))
    ensures tools.listing.Some? && NoRepeats(tools.listing.value) ==>
      OneItemPerFile(index.items, tools.listing.value, (r: Tool) => r.slug)
  {
    var items := ToolItems(tools, gamesMap, games);
    ToolLeIsPreorder(coll);
    var sorted := SortBy(items, ToolLe(coll));
    index := Index(sorted);
    if tools.listing.Some? && NoRepeats(tools.listing.value) {
      PermutationOneItemPerFile(index.items, ToolRecords(tools, gamesMap, games), tools.listing.value, (r: Tool) => r.slug);
    }
  }

  /** The loop of `buildTools`: one record per entry file, in listing order. */
  method ToolItems(tools: Dir, gamesMap: map<string, GameMeta>, games: Dir) returns (items: seq<Tool>)
    ensures items == ToolRecords(tools, gamesMap, games)
  {
    var recs := ToolRecords(tools, gamesMap, games);
    var files := ListJson(tools.listing);
    items := [];
    for i := 0 to |files|
      invariant items == recs[..i]
    {
      var f := files[i];
      var data := Fields(ReadJson(tools, f));
      var slug := FileSlug(f);
      var link := LinkGame(data, gamesMap, games);
      var extras := PickExtras(data);
      var item := ToolOf(slug, data, link, extras);
      assert item == ToolRecord(f, ReadJson(tools, f), gamesMap, games) == recs[i];
      PrefixSnoc(recs, i);
      items := items + [item];
    }
    assert recs[..|files|] == recs;
  }

  /** The object `buildGames` writes for one game: its fields, with the extras spread over them. */
  function GameValue(g: Game): Value {
    Obj(map["slug" := Str(g.slug), "name" := g.name, "status" := g.status, "cover" := g.cover,
            "short" := g.short, "publisher" := g.publisher] + g.extras)
  }

  /** What reading back the written `{items}` file gives. */
  function IndexValue(index: Index<Game>): Value {
    Obj(map["items" := Arr(seq(|index.items|, i requires 0 <= i < |index.items| => GameValue(index.items[i])))])
  }

  /**
   * The games directory once `buildGames` has written `index.json`. Later
   * steps read files of this directory but never list it again.
   */
  function WithGamesIndex(games: Dir, index: Index<Game>): (after: Dir)
    ensures forall f :: f != "index.json" ==> ReadJson(after, f) == ReadJson(games, f)
    ensures Fields(ReadJson(after, "index.json")).Keys == {"items"}
  {
    Dir(games.listing, games.files["index.json" := Some(IndexValue(index))])
  }

  /** Writing the games index does not touch any entry of the games map: no listed game has the slug `index`. */
  lemma CacheAgreesAfterIndex(m: map<string, GameMeta>, games: Dir, index: Index<Game>)
    requires m.Keys == Slugs(ListJson(games.listing)) && CacheAgrees(m, games)
    ensures CacheAgrees(m, WithGamesIndex(games, index))
  {
    var files := ListJson(games.listing);
    forall s | s in m ensures s + ".json" != "index.json" {
      var f :| f in files && FileSlug(f) == s;
      assert IsEntryFile(f);
      assert s + ".json" == f;
    }
  }

  /** The games index is the file a game of slug `index` would have. */
  lemma IndexFileName()
    ensures "index" + ".json" == "index.json"
  {
  }

  /** The written games index has neither `name` nor `status`. */
  lemma IndexFileNameless(games: Dir, index: Index<Game>)
    ensures var g := Fields(ReadJson(WithGamesIndex(games, index), "index.json"));
      "name" !in g && "status" !in g
  {
  }

  /**
   * A build, guide or tool whose game reference is `index` is enriched from
   * the games index that `buildGames` has just written: that file has no
   * `name` or `status`, so the display name is `''` and the status `actif`.
   */
  lemma IndexRefReadsWrittenIndex(data: map<string, Value>, m: map<string, GameMeta>, games: Dir, index: Index<Game>)
    requires CacheAgrees(m, WithGamesIndex(games, index))
    requires PathToSlug(GameRef(data)) == "index"
    ensures LinkGame(data, m, WithGamesIndex(games, index)) == GameLink("index", Str(""), Str("actif"))
  {
    IndexFileNameless(games, index);
    IndexFileName();
    LinkNamelessGame(data, m, WithGamesIndex(games, index), "index");
  }

  /**
   * The whole run: load the games map once, build the games index and write
   * it, then build the three other indexes. Thanks to the cache being
   * transparent, every enriched index is exactly what reading each parent
   * game's file at that point of the run gives, the freshly written games
   * `index.json` included.
   */
  method BuildAll(content: Content, coll: string -> seq<int>)
    returns (games: Index<Game>, builds: Index<Build>, guides: Index<Guide>, tools: Index<Tool>)
    ensures multiset(games.items) == multiset(GameRecords(content.games))
    ensures var written := WithGamesIndex(content.games, games);
      && multiset(builds.items) == multiset(BuildRecords(content.builds, map[], written))
      && multiset(guides.items) == multiset(GuideRecords(content.guides, map[], written))
      && multiset(tools.items) == multiset(ToolRecords(content.tools, map[], written))
    ensures Sorted(games.items, GameLe(coll)) && Sorted(builds.items, BuildLe(coll))
    ensures Sorted(guides.items, GuideLe(coll)) && Sorted(tools.items, ToolLe(coll))
  {
    var gamesMap := LoadGamesMap(content.games);
    games := BuildGames(content.games, coll);
    var written := WithGamesIndex(content.games, games);
    CacheAgreesAfterIndex(gamesMap, content.games, games);
    builds := BuildBuilds(content.builds, gamesMap, written, coll);
    guides := BuildGuides(content.guides, gamesMap, written, coll);
    tools := BuildTools(content.tools, gamesMap, written, coll);
    RecordsCacheFree(content.builds, content.guides, content.tools, gamesMap, written);
  }

  /** The records of builds, guides and tools are the same with the games map as without it. */
  lemma RecordsCacheFree(builds: Dir, guides: Dir, tools: Dir, m: map<string, GameMeta>, games: Dir)
    requires CacheAgrees(m, games)
    ensures BuildRecords(builds, m, games) == BuildRecords(builds, map[], games)
    ensures GuideRecords(guides, m, games) == GuideRecords(guides, map[], games)
    ensures ToolRecords(tools, m, games) == ToolRecords(tools, map[], games)
  {
    forall data: map<string, Value> ensures LinkGame(data, m, games) == LinkGame(data, map[], games) {
      LinkGameCacheFree(data, m, games);
    }
  }

  // ---------------------------------------------------------------------
  // One item per file
  // ---------------------------------------------------------------------

  /** A listing without repeated names, as `readdir` gives. */
  predicate NoRepeats(listing: seq<string>) {
    forall i, j :: 0 <= i < j < |listing| ==> listing[i] != listing[j]
  }

  /**
   * Exactly one item per entry file of the listing: as many items as
   * files, pairwise distinct slugs, and the slugs are the files' slugs.
   */
  ghost predicate OneItemPerFile<T>(items: seq<T>, listing: seq<string>, slugOf: T -> string) {
    var files := ListJson(Some(listing));
    && |items| == |files|
    && DistinctBy(items, slugOf)
    && ItemSlugs(items, slugOf) == Slugs(files)
  }

  ghost function ItemSlugs<T>(items: seq<T>, slugOf: T -> string): set<string> {
    set x | x in items :: slugOf(x)
  }

  /** An index holding a permutation of a collection's records has one item per entry file. */
  lemma PermutationOneItemPerFile<T>(items: seq<T>, records: seq<T>, listing: seq<string>, slugOf: T -> string)
    requires NoRepeats(listing)
    requires multiset(items) == multiset(records)
    requires |records| == |ListJson(Some(listing))|
    requires forall i :: 0 <= i < |records| ==> slugOf(records[i]) == FileSlug(ListJson(Some(listing))[i])
    ensures OneItemPerFile(items, listing, slugOf)
  {
    var files := ListJson(Some(listing));
    ListJsonDistinct(listing);
    assert |items| == |multiset(items)| == |multiset(records)| == |records|;
    forall i, j | 0 <= i < j < |records| ensures slugOf(records[i]) != slugOf(records[j]) {
      assert files[i] != files[j] && files[i] in files && files[j] in files;
    }
    PermutationDistinctBy(items, records, slugOf);
    forall x | x in items ensures slugOf(x) in Slugs(files) {
      assert x in multiset(records);
      var i :| 0 <= i < |records| && records[i] == x;
      assert files[i] in files;
    }
    forall f | f in files ensures FileSlug(f) in ItemSlugs(items, slugOf) {
      var i :| 0 <= i < |files| && files[i] == f;
      assert records[i] in multiset(items);
    }
  }

  // ---------------------------------------------------------------------
  // Worked example: two game files sorted by name
  // ---------------------------------------------------------------------

  /** `a.json` holds `{name: "Zeta"}` and `b.json` holds `{name: "Alpha"}`. */
  function ExampleGames(): Dir {
    Dir(Some(["a.json", "b.json"]),
        map["a.json" := Some(Obj(map["name" := Str("Zeta")])), "b.json" := Some(Obj(map["name" := Str("Alpha")]))])
  }

  lemma ExampleFiles()
    ensures ListJson(ExampleGames().listing) == ["a.json", "b.json"]
  {
    assert IsEntryFile("a.json") && IsEntryFile("b.json");
    assert FilterEntries([]) == [];
    assert FilterEntries(["b.json"]) == ["b.json"];
    assert FilterEntries(["a.json", "b.json"]) == ["a.json", "b.json"];
  }

  /** The name a game file with the single field `name` gives its record. */
  lemma NamedGameRecord(f: string, name: string)
    ensures GameRecord(f, Some(Obj(map["name" := Str(name)]))).name == Str(name)
  {
    var data := Fields(Some(Obj(map["name" := Str(name)])));
    assert data == map["name" := Str(name)];
    assert Get(data, "name") == Some(Str(name));
  }

  lemma ExampleRecords()
    ensures var recs := GameRecords(ExampleGames());
      |recs| == 2 && recs == [recs[0], recs[1]]
      && recs[0].name == Str("Zeta") && recs[1].name == Str("Alpha")
  {
    var d := ExampleGames();
    ExampleFiles();
    var recs := GameRecords(d);
    assert ReadJson(d, "a.json") == Some(Obj(map["name" := Str("Zeta")]));
    assert ReadJson(d, "b.json") == Some(Obj(map["name" := Str("Alpha")]));
    assert recs[0] == GameRecord("a.json", Some(Obj(map["name" := Str("Zeta")])));
    assert recs[1] == GameRecord("b.json", Some(Obj(map["name" := Str("Alpha")])));
    NamedGameRecord("a.json", "Zeta");
    NamedGameRecord("b.json", "Alpha");
    assert recs == [recs[0], recs[1]];
  }

  /** Whatever order the sort leaves them in, comparing by code points puts Alpha before Zeta. */
  lemma ExampleGamesOrder(items: seq<Game>)
    requires multiset(items) == multiset(GameRecords(ExampleGames()))
    requires Sorted(items, GameLe(Units))
    ensures |items| == 2 && items[0].name == Str("Alpha") && items[1].name == Str("Zeta")
  {
    ExampleRecords();
    var recs := GameRecords(ExampleGames());
    SortedPairByName(items, recs[0], recs[1]);
  }

  /** Two games, sorted by code points of their names, whatever order they came in. */
  lemma SortedPairByName(items: seq<Game>, z: Game, a: Game)
    requires z.name == Str("Zeta") && a.name == Str("Alpha")
    requires multiset(items) == multiset([z, a])
    requires Sorted(items, GameLe(Units))
    ensures |items| == 2 && items[0].name == Str("Alpha") && items[1].name == Str("Zeta")
  {
    assert |items| == |multiset(items)| == 2;
    assert items == [items[0], items[1]];
    assert multiset(items) == multiset{items[0], items[1]};
    assert items[0] in multiset([z, a]) && items[1] in multiset([z, a]);
    assert LexCmp(Units("Zeta"), Units("Alpha")) == 1;
    assert GameLe(Units)(items[0], items[1]);
  }
}
