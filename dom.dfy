/**
 * The slice of a DOM element the browser scripts read and write: its
 * attributes (never changed here), its class list, and the properties the
 * scripts assign (`hidden`, `style.display`, `disabled`, `textContent`).
 */
module Dom {
  import opened Wrappers

  class Element {
    const attrs: map<string, string>
    var classes: set<string>
    var hidden: bool
    var display: string
    var disabled: bool
    var text: string

    constructor (attrs: map<string, string>, classes: set<string>)
      ensures this.attrs == attrs && this.classes == classes
      ensures !hidden && display == "" && !disabled && text == ""
    {
      this.attrs := attrs;
      this.classes := classes;
      hidden := false;
      display := "";
      disabled := false;
      text := "";
    }

    /** `getAttribute(name)`, None for `null`. */
    function Attr(name: string): Option<string> {
      if name in attrs then Some(attrs[name]) else None
    }
  }

  /** Position `i` holds the first element whose attribute `name` is `value`. */
  predicate FirstMatchAt(elems: seq<Element>, i: int, name: string, value: string) {
    && 0 <= i < |elems|
    && elems[i].Attr(name) == Some(value)
    && forall j :: 0 <= j < i ==> elems[j].Attr(name) != Some(value)
  }

  /** `querySelector('[name="value"]')` over the candidates, in document order: the first match. */
  function Query(elems: seq<Element>, name: string, value: string): (r: Option<Element>)
    ensures r.Some? ==> r.value in elems && r.value.Attr(name) == Some(value)
    ensures r.Some? ==> exists i :: FirstMatchAt(elems, i, name, value) && elems[i] == r.value
    ensures r.None? ==> forall e :: e in elems ==> e.Attr(name) != Some(value)
  {
    if elems == [] then None
    else if elems[0].Attr(name) == Some(value) then
      assert FirstMatchAt(elems, 0, name, value);
      Some(elems[0])
    else
      var r := Query(elems[1..], name, value);
      assert r.Some? ==> exists i :: FirstMatchAt(elems, i, name, value) && elems[i] == r.value by {
        if r.Some? {
          var i :| FirstMatchAt(elems[1..], i, name, value) && elems[1..][i] == r.value;
          forall j | 0 <= j < i + 1 ensures elems[j].Attr(name) != Some(value) {
            if j > 0 {
              assert elems[j] == elems[1..][j - 1];
            }
          }
          assert FirstMatchAt(elems, i + 1, name, value);
        }
      }
      r
  }

  /** No element appears twice, as in the result of `querySelectorAll`. */
  predicate Distinct(s: seq<Element>) {
    forall i, j :: 0 <= i < j < |s| ==> s[i] != s[j]
  }

  /** The element as a frame: itself, or nothing. */
  function Frame(e: Option<Element>): set<Element> {
    if e.Some? then {e.value} else {}
  }
}
