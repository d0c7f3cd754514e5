/**
 * `assets/header.js`: fetch the shared header fragment from under the
 * site's first path segment, then mark the navigation link of the current
 * page as active and fill the page label.
 *
 * The location path is a parameter, and so is the outcome of the fetch,
 * as a predicate on the requested URL. The links are the `.main-nav a`
 * elements of the document once the fragment is in place.
 */
module Header {
  import opened Wrappers
  import opened Text
  import opened Dom

  // ---------------------------------------------------------------------
  // The base prefix and the header URL
  // ---------------------------------------------------------------------

  /** `.filter(Boolean)` on strings: the non-empty ones, in order. */
  function NonEmpty(pieces: seq<string>): (r: seq<string>)
    ensures forall p :: p in r <==> p in pieces && p != ""
  {
    if pieces == [] then []
    else
      assert forall p :: p in pieces <==> p == pieces[0] || p in pieces[1..];
      if pieces[0] == "" then NonEmpty(pieces[1..]) else [pieces[0]] + NonEmpty(pieces[1..])
  }

  /** `location.pathname.split('/').filter(Boolean)`. */
  function Segments(path: string): seq<string> {
    NonEmpty(Split(path, '/'))
  }

  /** `/<first segment>/`, or `/` when the path has no segment: a single directory level at most. */
  function BasePrefix(path: string): (prefix: string)
    ensures prefix == "/" || (
      && |prefix| >= 3 && prefix[0] == '/' && prefix[|prefix| - 1] == '/'
      && '/' !in prefix[1..|prefix| - 1])
  {
    var parts := Segments(path);
    if |parts| > 0 then
      assert parts[0] in parts;
      assert ("/" + parts[0] + "/")[1..|parts[0]| + 1] == parts[0];
      "/" + parts[0] + "/"
    else "/"
  }

  /** `basePrefix + 'partials/header.html'`. */
  function HeaderUrl(path: string): (url: string)
    ensures StartsWith(url, BasePrefix(path)) && EndsWith(url, "partials/header.html")
    ensures |url| == |BasePrefix(path)| + |"partials/header.html"|
  {
    var url := BasePrefix(path) + "partials/header.html";
    assert url[..|BasePrefix(path)|] == BasePrefix(path);
    assert url[|url| - |"partials/header.html"|..] == "partials/header.html";
    url
  }

  /** `n` slashes. */
  function Slashes(n: nat): (s: string)
    ensures |s| == n && forall i :: 0 <= i < n ==> s[i] == '/'
  {
    seq(n, _ => '/')
  }

  /** A string starting with the separator splits into an empty piece and the rest's pieces. */
  lemma SplitLeadingSeparator(s: string, sep: char)
    ensures Split([sep] + s, sep) == [""] + Split(s, sep)
  {
    assert IndexOf([sep] + s, sep) == 0;
    assert ([sep] + s)[1..] == s;
  }

  /** The first piece of a split is everything before the first separator. */
  lemma SplitFirstPiece(seg: string, rest: string, sep: char)
    requires sep !in seg
    requires rest == [] || rest[0] == sep
    ensures Split(seg + rest, sep)[0] == seg
  {
    var s := seg + rest;
    assert s[..|seg|] == seg;
  }

  /** Leading slashes do not change the segments. */
  lemma {:induction false} SegmentsAfterSlashes(n: nat, s: string)
    ensures Segments(Slashes(n) + s) == Segments(s)
  {
    if n > 0 {
      SegmentsAfterSlashes(n - 1, s);
      var t := Slashes(n - 1) + s;
      assert Slashes(n) + s == ['/'] + t;
      SplitLeadingSeparator(t, '/');
      var pieces := Split(t, '/');
      assert Split(Slashes(n) + s, '/') == [""] + pieces;
      assert ([""] + pieces)[1..] == pieces;
      assert NonEmpty([""] + pieces) == NonEmpty(pieces);
    } else {
      assert Slashes(n) + s == s;
    }
  }

  /** The prefix is the first directory-or-file name of the path, however many slashes lead to it. */
  lemma BasePrefixOf(n: nat, seg: string, rest: string)
    requires seg != "" && '/' !in seg
    requires rest == "" || rest[0] == '/'
    ensures BasePrefix(Slashes(n) + seg + rest) == "/" + seg + "/"
  {
    assert Slashes(n) + seg + rest == Slashes(n) + (seg + rest);
    SegmentsAfterSlashes(n, seg + rest);
    SplitFirstPiece(seg, rest, '/');
    var pieces := Split(seg + rest, '/');
    assert pieces == [pieces[0]] + pieces[1..];
  }

  /** A path of slashes only has the root prefix. */
  lemma BasePrefixRoot(n: nat)
    ensures BasePrefix(Slashes(n)) == "/"
  {
    SegmentsAfterSlashes(n, "");
    assert Slashes(n) + "" == Slashes(n);
    SplitNoSeparator("", '/');
  }

  /** On a page at the top of the site the file name itself is taken as the prefix. */
  lemma BasePrefixRootFile(file: string)
    requires file != "" && '/' !in file
    ensures HeaderUrl("/" + file) == "/" + file + "/partials/header.html"
  {
    BasePrefixOf(1, file, "");
    assert Slashes(1) + file + "" == "/" + file;
  }

  // ---------------------------------------------------------------------
  // The current page and the active link
  // ---------------------------------------------------------------------

  /** `pathname.split('/').pop()`: what follows the last slash. */
  function LastSegment(path: string): (last: string)
    ensures '/' !in last
  {
    var pieces := Split(path, '/');
    assert pieces[|pieces| - 1] in pieces;
    pieces[|pieces| - 1]
  }

  /** `(pathname.split('/').pop() || 'index.html').toLowerCase()`. */
  function Current(path: string): (current: string)
    ensures current != "" && '/' !in current
    ensures Lower(current) == current
  {
    var last := LastSegment(path);
    var current := Lower(if last == "" then "index.html" else last);
    assert forall i :: 0 <= i < |current| ==> current[i] != '/';
    LowerIdempotent(if last == "" then "index.html" else last);
    current
  }

  /** The last piece of a split is what follows the last separator. */
  lemma {:induction false} SplitLastPiece(prefix: string, name: string, sep: char)
    requires sep !in name
    ensures var pieces := Split(prefix + [sep] + name, sep); pieces[|pieces| - 1] == name
    decreases |prefix|
  {
    var s := prefix + [sep] + name;
    var i := IndexOf(s, sep);
    assert s[|prefix|] == sep;
    if i == |prefix| {
      assert s[i + 1..] == name;
      SplitNoSeparator(name, sep);
    } else {
      assert s[i + 1..] == prefix[i + 1..] + [sep] + name;
      SplitLastPiece(prefix[i + 1..], name, sep);
    }
  }

  /** The current page is the lower-cased file name after the last slash, `index.html` for a directory. */
  lemma CurrentOf(dir: string, name: string)
    requires '/' !in name
    ensures Current(dir + "/" + name) == Lower(if name == "" then "index.html" else name)
  {
    var path := dir + "/" + name;
    assert path == dir + ['/'] + name;
    SplitLastPiece(dir, name, '/');
    assert LastSegment(path) == name;
  }

  /** The link's `href`, lower-cased, `''` when it has none. */
  function Href(a: Element): (h: string)
    ensures Lower(h) == h
    ensures a.Attr("href").None? ==> h == ""
    ensures a.Attr("href").Some? ==> MatchesIgnoringCase(a.Attr("href").value, h)
  {
    LowerIdempotent(a.Attr("href").GetOr(""));
    Lower(a.Attr("href").GetOr(""))
  }

  /**
   * A link without `href` is never marked, and a link is marked exactly
   * when its `href` is the current file name in some letter case.
   */
  lemma MarkedIffMatches(a: Element, path: string)
    ensures a.Attr("href").None? ==> Href(a) != Current(path)
    ensures a.Attr("href").Some? ==> (Href(a) == Current(path) <==> MatchesIgnoringCase(a.Attr("href").value, Current(path)))
  {
  }

  /** A link is marked when its `href` names the current file, in any letter case. */
  lemma MarkedIgnoringCase(a: Element, dir: string, name: string)
    requires '/' !in name && name != ""
    requires a.Attr("href") == Some(name)
    ensures Href(a) == Current(dir + "/" + name)
  {
    CurrentOf(dir, name);
  }

  /** Adds `active` to every link whose `href` is the current file; never removes it. */
  method MarkActive(links: seq<Element>, current: string)
    modifies links`classes
    ensures forall a :: a in links ==>
      a.classes == old(a.classes) + (if Href(a) == current then {"active"} else {})
  {
    for i := 0 to |links|
      invariant forall a :: a in links ==>
        a.classes == old(a.classes) + (if Href(a) == current && a in links[..i] then {"active"} else {})
    {
      var a := links[i];
      assert links[..i + 1] == links[..i] + [a];
      if Href(a) == current {
        a.classes := a.classes + {"active"};
      }
    }
    assert links[..|links|] == links;
  }

  // ---------------------------------------------------------------------
  // The page label
  // ---------------------------------------------------------------------

  /** The pages `mapByFile` names. */
  const LabelledFiles: set<string> := {"index.html", "games.html", "builds.html", "guides.html", "tools.html", "detail.html"}

  /** `mapByFile[current]`. */
  function FileLabel(current: string): (word: Option<string>)
    ensures word.Some? <==> current in LabelledFiles
    ensures word.Some? ==> word.value != "" && forall i :: 0 <= i < |word.value| ==> 'A' <= word.value[i] <= 'Z'
  {
    match current
    case "index.html" => Some("HOME")
    case "games.html" => Some("JEUX")
    case "builds.html" => Some("BUILDS")
    case "guides.html" => Some("GUIDES")
    case "tools.html" => Some("OUTILS")
    case "detail.html" => Some("DETAIL")
    case _ => None
  }

  /**
   * `metaLabel || mapByFile[current] || ''`, `meta` being the `content` of
   * `<meta name="cms:label">` when the page has one.
   */
  function Label(meta: Option<string>, current: string): string {
    if meta.Some? && Trim(meta.value) != "" then Trim(meta.value)
    else if FileLabel(current).Some? then FileLabel(current).value
    else ""
  }

  /** The label never starts or ends with white space. */
  lemma LabelTrimmed(meta: Option<string>, current: string)
    ensures Trim(Label(meta, current)) == Label(meta, current)
  {
    var shown := Label(meta, current);
    if meta.Some? && Trim(meta.value) != "" {
      TrimIdempotent(meta.value);
    } else {
      assert forall i :: 0 <= i < |shown| ==> !IsSpace(shown[i]);
      assert LeadingSpace(shown) == 0;
      assert TrailingSpace(shown) == 0;
    }
  }

  /** Without a label of its own, a page in the navigation is labelled by its file name, in any case. */
  lemma LabelFromFileName(dir: string, name: string)
    requires '/' !in name && name != ""
    requires FileLabel(Lower(name)).Some?
    ensures Label(None, Current(dir + "/" + name)) == FileLabel(Lower(name)).value
  {
    CurrentOf(dir, name);
  }

  // ---------------------------------------------------------------------
  // The whole script
  // ---------------------------------------------------------------------

  /**
   * The script: requests the header fragment; when that fails it stops and
   * touches nothing, otherwise it marks the active link and, if the page
   * has a `#page-label` element, writes the label into it.
   */
  method Load(path: string, fetchOk: string -> bool, links: seq<Element>, meta: Option<string>, pageLabel: Option<Element>)
    returns (url: string)
    modifies links`classes, Frame(pageLabel)`text
    ensures url == HeaderUrl(path)
    ensures !fetchOk(url) ==>
      && (forall a :: a in links ==> a.classes == old(a.classes))
      && (pageLabel.Some? ==> pageLabel.value.text == old(pageLabel.value.text))
    ensures fetchOk(url) ==>
      && (forall a :: a in links ==>
            a.classes == old(a.classes) + (if Href(a) == Current(path) then {"active"} else {}))
      && (pageLabel.Some? ==> pageLabel.value.text == Label(meta, Current(path)))
  {
    url := HeaderUrl(path);
    if fetchOk(url) {
      Decorate(Current(path), links, meta, pageLabel);
    }
  }

  /** Steps 2 and 3 of the script, once the fragment is in place. */
  method Decorate(current: string, links: seq<Element>, meta: Option<string>, pageLabel: Option<Element>)
    modifies links`classes, Frame(pageLabel)`text
    ensures forall a :: a in links ==>
      a.classes == old(a.classes) + (if Href(a) == current then {"active"} else {})
    ensures pageLabel.Some? ==> pageLabel.value.text == Label(meta, current)
  {
    MarkActive(links, current);
    if pageLabel.Some? {
      pageLabel.value.text := Label(meta, current);
    }
  }
}
