/**
 * `ui-patch.js`: the hash micro-router, the three-cards-per-page pager of
 * the games grid, and the loader that fills the games collection from
 * `collections/jeux.json`.
 *
 * The page is given as the elements each script selects; the location
 * hash and the fetched JSON are parameters. Event wiring is left to the
 * caller: a `hashchange` is a call of `Route`, a click on a pager button a
 * call of `Prev` or `Next`, a `content:updated` event a call of `Init`.
 */
module UiPatch {
  import opened Wrappers
  import opened Text
  import opened Json
  import opened Dom

  // ---------------------------------------------------------------------
  // Micro-router
  // ---------------------------------------------------------------------

  const Routes: seq<string> := ["jeux", "builds", "categories"]
  const DefaultRoute: string := "jeux"

  /** `hash.replace(/^#\//, '')`. */
  function StripHashSlash(hash: string): (r: string)
    ensures StartsWith(hash, "#/") ==> "#/" + r == hash
    ensures !StartsWith(hash, "#/") ==> r == hash
  {
    if StartsWith(hash, "#/") then hash[2..] else hash
  }

  /** The route named by the hash, or the default route when it names none. */
  function GetRoute(hash: string): (route: string)
    ensures route in Routes
    ensures StripHashSlash(hash) in Routes ==> route == StripHashSlash(hash)
    ensures StripHashSlash(hash) !in Routes ==> route == DefaultRoute
  {
    var r := StripHashSlash(hash);
    if r in Routes then r else DefaultRoute
  }

  /** Every route is reached through its own `#/<route>` hash. */
  lemma RouteRoundTrip(route: string)
    requires route in Routes
    ensures GetRoute("#/" + route) == route
  {
    assert StartsWith("#/" + route, "#/");
    assert ("#/" + route)[2..] == route;
  }

  /** Navigating to the route the page shows keeps showing it. */
  lemma GetRouteStable(hash: string)
    ensures GetRoute("#/" + GetRoute(hash)) == GetRoute(hash)
  {
    RouteRoundTrip(GetRoute(hash));
  }

  /**
   * `show(route)`: a view is hidden unless its `data-view` is the route;
   * a link carries the `active` class exactly when its `data-route` is the
   * route, its other classes untouched.
   */
  method Show(route: string, views: seq<Element>, links: seq<Element>)
    modifies views`hidden, links`classes
    ensures forall v :: v in views ==> v.hidden == (v.Attr("data-view") != Some(route))
    ensures forall a :: a in links ==> ("active" in a.classes <==> a.Attr("data-route") == Some(route))
    ensures forall a :: a in links ==> a.classes - {"active"} == old(a.classes) - {"active"}
  {
    for i := 0 to |views|
      invariant forall j :: 0 <= j < i ==> views[j].hidden == (views[j].Attr("data-view") != Some(route))
      invariant forall a :: a in links ==> a.classes == old(a.classes)
    {
      views[i].hidden := views[i].Attr("data-view") != Some(route);
    }
    for i := 0 to |links|
      invariant forall v :: v in views ==> v.hidden == (v.Attr("data-view") != Some(route))
      invariant forall j :: 0 <= j < i ==> ("active" in links[j].classes <==> links[j].Attr("data-route") == Some(route))
      invariant forall a :: a in links ==> a.classes - {"active"} == old(a.classes) - {"active"}
    {
      var a := links[i];
      if a.Attr("data-route") == Some(route) {
        a.classes := a.classes + {"active"};
      } else {
        a.classes := a.classes - {"active"};
      }
    }
  }

  /** `init()` of the router, run on load and on every `hashchange`. */
  method Route(hash: string, views: seq<Element>, links: seq<Element>)
    modifies views`hidden, links`classes
    ensures forall v :: v in views ==> (!v.hidden <==> v.Attr("data-view") == Some(GetRoute(hash)))
    ensures forall a :: a in links ==> ("active" in a.classes <==> a.Attr("data-route") == Some(GetRoute(hash)))
    ensures forall a :: a in links ==> a.classes - {"active"} == old(a.classes) - {"active"}
  {
    Show(GetRoute(hash), views, links);
  }

  // ---------------------------------------------------------------------
  // Pagination
  // ---------------------------------------------------------------------

  const PageSize: nat := 3

  /** `Math.max(1, Math.ceil(total / PAGE_SIZE))`: the fewest pages, at least one, that hold every card. */
  function TotalPages(total: nat): (pages: nat)
    ensures pages >= 1
    ensures PageSize * pages >= total
    ensures pages == 1 || PageSize * (pages - 1) < total
  {
    if total == 0 then 1 else (total + PageSize - 1) / PageSize
  }

  /** Card `i` lies in the window `[start, start + PAGE_SIZE)` of `page`. */
  predicate OnPage(i: int, page: int) {
    (page - 1) * PageSize <= i < (page - 1) * PageSize + PageSize
  }

  /** Each card is on exactly one page, and that page exists. */
  lemma CardOnOnePage(total: nat, i: nat)
    requires i < total
    ensures 1 <= i / PageSize + 1 <= TotalPages(total)
    ensures OnPage(i, i / PageSize + 1)
    ensures forall p :: OnPage(i, p) ==> p == i / PageSize + 1
  {
  }

  /** The cards shown on `page` of a grid of `total` cards. */
  function Shown(total: nat, page: int): set<int> {
    set i | 0 <= i < total && OnPage(i, page)
  }

  lemma SubsetCardinality<T>(a: set<T>, b: set<T>)
    requires a <= b
    ensures |a| <= |b|
  {
    if a != {} {
      var x :| x in a;
      SubsetCardinality(a - {x}, b - {x});
    }
  }

  /** Every existing page of a non-empty grid shows between one and `PAGE_SIZE` cards. */
  lemma ShownCount(total: nat, page: int)
    requires 1 <= page <= TotalPages(total)
    ensures |Shown(total, page)| <= PageSize
    ensures total > 0 ==> |Shown(total, page)| >= 1
  {
    var start := (page - 1) * PageSize;
    var s := Shown(total, page);
    SubsetCardinality(s, {start, start + 1, start + 2});
    if total > 0 {
      if page > 1 {
        assert PageSize * (TotalPages(total) - 1) < total;
        assert PageSize * (page - 1) <= PageSize * (TotalPages(total) - 1);
      }
      assert start in s;
    }
  }

  /** The `cards.forEach` of `render()`: the cards of `page` are displayed, every other card gets `display: none`. */
  method ShowPage(cards: seq<Element>, page: int)
    requires Distinct(cards)
    modifies cards`display
    ensures forall i :: 0 <= i < |cards| ==> cards[i].display == if OnPage(i, page) then "" else "none"
  {
    var start := (page - 1) * PageSize;
    var end := start + PageSize;
    for i := 0 to |cards|
      invariant forall j :: 0 <= j < i ==> cards[j].display == if OnPage(j, page) then "" else "none"
    {
      cards[i].display := if start <= i < end then "" else "none";
    }
  }

  /** `` `${page}/${totalPages}` ``. */
  function PageInfo(page: nat, totalPages: nat): string {
    NatText(page) + "/" + NatText(totalPages)
  }

  /** The page info reads back: split at `/`, it gives the page and the page count in decimal. */
  lemma PageInfoRoundTrip(page: nat, totalPages: nat)
    ensures var parts := Split(PageInfo(page, totalPages), '/');
      && |parts| == 2
      && (forall i :: 0 <= i < 2 ==> forall k :: 0 <= k < |parts[i]| ==> '0' <= parts[i][k] <= '9')
      && DigitsValue(parts[0]) == page && DigitsValue(parts[1]) == totalPages
  {
    var a, b := NatText(page), NatText(totalPages);
    assert Join([a, b], '/') == PageInfo(page, totalPages);
    assert forall k :: 0 <= k < |a| ==> a[k] != '/';
    assert forall k :: 0 <= k < |b| ==> b[k] != '/';
    SplitJoin([a, b], '/');
    NatTextRoundTrip(page);
    NatTextRoundTrip(totalPages);
  }

  /** The pager `renderPager` builds over the grid's cards and the pager's buttons. */
  class Pager {
    const cards: seq<Element>
    const items: seq<Element>
    const totalPages: nat
    const prevBtn: Option<Element>
    const nextBtn: Option<Element>
    const info: Option<Element>
    var page: nat

    /** The buttons are the pager's `[data-page="…"]` descendants. */
    predicate Wired() {
      && prevBtn == Query(items, "data-page", "prev")
      && nextBtn == Query(items, "data-page", "next")
      && info == Query(items, "data-page", "info")
    }

    /** What `render()` leaves on the page for the current `page`. */
    predicate Rendered()
      reads this, cards, Frame(prevBtn), Frame(nextBtn), Frame(info)
    {
      && (forall i :: 0 <= i < |cards| ==> cards[i].display == if OnPage(i, page) then "" else "none")
      && (info.Some? ==> info.value.text == PageInfo(page, totalPages))
      && (prevBtn.Some? ==> prevBtn.value.disabled == (page == 1))
      && (nextBtn.Some? ==> nextBtn.value.disabled == (page == totalPages))
    }

    ghost predicate Valid()
      reads this, cards, Frame(prevBtn), Frame(nextBtn), Frame(info)
    {
      && Distinct(cards)
      && Wired()
      && totalPages == TotalPages(|cards|)
      && 1 <= page <= totalPages
      && Rendered()
    }

    constructor (cards: seq<Element>, items: seq<Element>)
      requires Distinct(cards)
      ensures this.cards == cards && this.items == items
      ensures Wired() && totalPages == TotalPages(|cards|) && page == 1
    {
      this.cards := cards;
      this.items := items;
      totalPages := TotalPages(|cards|);
      prevBtn := Query(items, "data-page", "prev");
      nextBtn := Query(items, "data-page", "next");
      info := Query(items, "data-page", "info");
      page := 1;
    }

    /** `render()`: shows the current window of cards and updates the info and buttons. */
    method Render()
      requires Distinct(cards) && Wired()
      modifies cards`display, Frame(info)`text, Frame(prevBtn)`disabled, Frame(nextBtn)`disabled
      ensures Rendered()
    {
      // The card windows and the three controls are different fields, so the
      // order of the writes cannot be observed; the cards come last here.
      assert prevBtn.Some? && nextBtn.Some? ==> prevBtn.value.Attr("data-page") != nextBtn.value.Attr("data-page");
      if info.Some? {
        info.value.text := PageInfo(page, totalPages);
      }
      if prevBtn.Some? {
        prevBtn.value.disabled := page == 1;
      }
      if nextBtn.Some? {
        nextBtn.value.disabled := page == totalPages;
      }
      ShowPage(cards, page);
    }

    /** A click on the previous button: one page back, unless on the first. */
    method Prev()
      requires Valid() && prevBtn.Some?
      modifies this`page, cards`display, Frame(info)`text, Frame(prevBtn)`disabled, Frame(nextBtn)`disabled
      ensures Valid()
      ensures page == if old(page) > 1 then old(page) - 1 else old(page)
    {
      if page > 1 {
        page := page - 1;
        Render();
      }
    }

    /** A click on the next button: one page on, unless on the last. */
    method Next()
      requires Valid() && nextBtn.Some?
      modifies this`page, cards`display, Frame(info)`text, Frame(prevBtn)`disabled, Frame(nextBtn)`disabled
      ensures Valid()
      ensures page == if old(page) < totalPages then old(page) + 1 else old(page)
    {
      if page < totalPages {
        page := page + 1;
        Render();
      }
    }
  }

  /** The `pagination` closure: its `initialized` flag and how many pagers it has rendered. */
  class Pagination {
    var initialized: bool
    ghost var renders: nat

    /** A pager is rendered once at most, and exactly when the flag is set. */
    ghost predicate Valid()
      reads this
    {
      renders <= 1 && (initialized <==> renders == 1)
    }

    constructor ()
      ensures Valid() && !initialized
    {
      initialized := false;
      renders := 0;
    }

    /**
     * `init()`: with both `#games-grid` (given by its `.game-card`
     * descendants) and `#games-pager` (given by its descendants) present
     * and no pager rendered yet, renders one at page 1; otherwise does
     * nothing.
     */
    method Init(grid: Option<seq<Element>>, pager: Option<seq<Element>>) returns (p: Pager?)
      requires Valid()
      requires grid.Some? ==> Distinct(grid.value)
      modifies this, grid.GetOr([])`display, Frame(Query(pager.GetOr([]), "data-page", "info"))`text
      modifies Frame(Query(pager.GetOr([]), "data-page", "prev"))`disabled
      modifies Frame(Query(pager.GetOr([]), "data-page", "next"))`disabled
      ensures Valid()
      ensures grid.None? || pager.None? || old(initialized) ==>
        && p == null && initialized == old(initialized) && renders == old(renders)
        && unchanged(grid.GetOr([])) && unchanged(pager.GetOr([]))
      ensures grid.Some? && pager.Some? && !old(initialized) ==>
        && p != null && fresh(p) && p.Valid() && p.page == 1
        && p.cards == grid.value && p.items == pager.value
        && initialized && renders == 1
    {
      p := null;
      if grid.None? || pager.None? {
        return;
      }
      if initialized {
        return;
      }
      initialized := true;
      p := new Pager(grid.value, pager.value);
      renders := renders + 1;
      p.Render();
    }
  }

  // ---------------------------------------------------------------------
  // Collection loader
  // ---------------------------------------------------------------------

  /**
   * A child of the collection root: `GameCard` is a child that is or holds
   * an element of class `game-card` (a card appended by the loader carries
   * its four bound values), `Other` is a child with no such element in it.
   */
  datatype Node =
    | GameCard(href: string, image: string, title: string, excerpt: string)
    | Other

  /** The `[data-collection="jeux"]` element and its children. */
  class Collection {
    var nodes: seq<Node>

    constructor (nodes: seq<Node>)
      ensures this.nodes == nodes
    {
      this.nodes := nodes;
    }
  }

  /** `root.querySelector('.game-card')` finds something. */
  predicate HasCard(nodes: seq<Node>) {
    exists n :: n in nodes && n.GameCard?
  }

  /** The card built for one non-null item of `jeux.json`. */
  function CardOf(item: Value): Node {
    var data := Fields(Some(item));
    GameCard(
      ToText(Or(Get(data, "url"), Str("#"))),
      ToText(Or(Get(data, "image"), Str(""))),
      ToText(Or(Get(data, "title"), Str(""))),
      ToText(Or(Get(data, "excerpt"), Str(""))))
  }

  /** The string `k` of an object item, when it is a non-empty string. */
  predicate HasText(item: Value, k: string) {
    item.Obj? && k in item.fields && item.fields[k].Str? && item.fields[k].s != ""
  }

  /** An item field that is missing or falsy. */
  predicate Falsy(item: Value, k: string) {
    !(item.Obj? && k in item.fields && Truthy(item.fields[k]))
  }

  /**
   * What a card shows: each non-empty string field of the item as it is; a
   * missing or falsy `url` as `#` and any other missing or falsy field as
   * `''`. An item that is not an object has no such fields at all.
   */
  lemma CardBinds(item: Value)
    ensures HasText(item, "url") ==> CardOf(item).href == item.fields["url"].s
    ensures HasText(item, "image") ==> CardOf(item).image == item.fields["image"].s
    ensures HasText(item, "title") ==> CardOf(item).title == item.fields["title"].s
    ensures HasText(item, "excerpt") ==> CardOf(item).excerpt == item.fields["excerpt"].s
    ensures Falsy(item, "url") ==> CardOf(item).href == "#"
    ensures Falsy(item, "image") ==> CardOf(item).image == ""
    ensures Falsy(item, "title") ==> CardOf(item).title == ""
    ensures Falsy(item, "excerpt") ==> CardOf(item).excerpt == ""
    ensures !item.Obj? ==> CardOf(item) == GameCard("#", "", "", "")
  {
  }

  /** The index of the first `null` item, where `item.url` throws; `|items|` when there is none. */
  function FirstNull(items: seq<Value>): (k: nat)
    ensures k <= |items|
    ensures forall i :: 0 <= i < k ==> items[i] != Null
    ensures k < |items| ==> items[k] == Null
  {
    if items == [] || items[0] == Null then 0 else 1 + FirstNull(items[1..])
  }

  /** One card per item, in order. */
  function CardsOf(items: seq<Value>): seq<Node> {
    seq(|items|, i requires 0 <= i < |items| => CardOf(items[i]))
  }

  lemma CardsOfPrefix(items: seq<Value>, i: nat)
    requires i < |items|
    ensures CardsOf(items[..i + 1]) == CardsOf(items[..i]) + [CardOf(items[i])]
  {
  }

  /** The cards `loadJeux` appends for a fetch result: one per item before the first `null`. */
  function Appended(response: Option<Value>): (cards: seq<Node>)
    ensures response.Some? && response.value.Arr? ==>
      var items := response.value.elems;
      |cards| == FirstNull(items) && forall i :: 0 <= i < |cards| ==> cards[i] == CardOf(items[i])
    ensures !(response.Some? && response.value.Arr?) ==> cards == []
  {
    if response.Some? && response.value.Arr? then
      var items := response.value.elems;
      CardsOf(items[..FirstNull(items)])
    else []
  }

  /** The fetch result is an array without `null` items, so the loop finishes and `content:updated` is sent. */
  predicate Completes(response: Option<Value>) {
    response.Some? && response.value.Arr? && Null !in response.value.elems
  }

  /** When the loop finishes, every item got its card. */
  lemma CompletesAppendsAll(response: Option<Value>)
    requires Completes(response)
    ensures |Appended(response)| == |response.value.elems|
  {
  }

  /** Once some card was appended, a second load appends nothing more. */
  lemma NoDuplicateLoad(nodes: seq<Node>, response: Option<Value>)
    requires Appended(response) != []
    ensures HasCard(nodes + Appended(response))
  {
    var cards := Appended(response);
    assert cards[0] in nodes + cards;
  }

  /**
   * `loadJeux()`. `response` is the parsed body of `collections/jeux.json`,
   * None when the fetch fails, is not ok, or the body is not JSON. Returns
   * whether `content:updated` was dispatched.
   */
  method LoadJeux(root: Collection?, response: Option<Value>) returns (updated: bool)
    modifies root
    ensures root == null ==> !updated
    ensures root != null && HasCard(old(root.nodes)) ==> updated && root.nodes == old(root.nodes)
    ensures root != null && !HasCard(old(root.nodes)) ==>
      root.nodes == old(root.nodes) + Appended(response) && updated == Completes(response)
  {
    if root == null {
      return false;
    }
    if HasCard(root.nodes) {
      return true;
    }
    if !(response.Some? && response.value.Arr?) {
      // no body, or `data.forEach` is not a function
      return false;
    }
    var items := response.value.elems;
    var before := root.nodes;
    var i := 0;
    while i < |items|
      invariant 0 <= i <= FirstNull(items)
      invariant root.nodes == before + CardsOf(items[..i])
    {
      if items[i] == Null {
        // `item.url` throws; the error is caught and nothing is dispatched
        assert items[i] in items;
        return false;
      }
      CardsOfPrefix(items, i);
      root.nodes := root.nodes + [CardOf(items[i])];
      i := i + 1;
    }
    assert items[..i] == items;
    return true;
  }
}
