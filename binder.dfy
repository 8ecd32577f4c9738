/**
 * What `bindData` (src/providers/api.ts) does to the page, stated on values.
 *
 * The page is abstracted to the elements that can receive data: each has an
 * id and a number of inner `span`s, which the template fixes. Writing into an
 * element either sets the text of its one inner span or, when it has no span
 * or several, sets the element's own text; such a write replaces the
 * element's children, so an element with several spans ends with none, and
 * the choice between the two cases never changes. A "refresh marker"
 * (`data('data-updates', true)`) can be attached to an element.
 */
module Binder {
  import opened Json

  /** The fixed part of the page and the key-to-id normalisation in use. */
  datatype Page = Page(normalize: string -> string, spans: map<string, nat>)

  /** The part of the page that binding changes. */
  datatype Dom = Dom(text: map<string, string>, spanText: map<string, string>, marked: set<string>)

  /** One leaf reached by the walk: its own key and its text. */
  type Write = (string, string)

  /** Writes `value` into the element whose id is `normalize(key)`; a missing element is a no-op. */
  function WriteLeaf(page: Page, d: Dom, w: Write, updates: bool): (r: Dom)
    ensures page.normalize(w.0) !in page.spans ==> r == d
    ensures r.marked == d.marked + (if updates && page.normalize(w.0) in page.spans then {page.normalize(w.0)} else {})
    ensures page.normalize(w.0) in page.spans && page.spans[page.normalize(w.0)] == 1 ==> r.text == d.text
    ensures page.normalize(w.0) in page.spans && page.spans[page.normalize(w.0)] != 1 ==> r.spanText == d.spanText
  {
    var id := page.normalize(w.0);
    if id !in page.spans then d
    else
      var d1 := if page.spans[id] == 1 then d.(spanText := d.spanText[id := w.1])
                else d.(text := d.text[id := w.1]);
      if updates then d1.(marked := d1.marked + {id}) else d1
  }

  /** `updateValues(value, key)`: a leaf is written, `null` is skipped, an object is walked. */
  function BoundValue(page: Page, d: Dom, key: string, value: Value, updates: bool): (r: Dom)
    ensures d.marked <= r.marked
    ensures !updates ==> r.marked == d.marked
    ensures value.Null? ==> r == d
    decreases value, 1
  {
    match value
    case Leaf(t) => WriteLeaf(page, d, (key, t), updates)
    case Null => d
    case Obj(fields) => BoundEntries(page, d, value, |fields|, updates)
  }

  /** `_.forEach(obj, updateValues)` over the first `n` entries of `obj`. */
  function BoundEntries(page: Page, d: Dom, obj: Value, n: nat, updates: bool): (r: Dom)
    requires obj.Obj? && n <= |obj.fields|
    ensures d.marked <= r.marked
    ensures !updates ==> r.marked == d.marked
    decreases obj, 0, n
  {
    if n == 0 then d
    else
      var e := obj.fields[n - 1];
      BoundValue(page, BoundEntries(page, d, obj, n - 1, updates), e.0, e.1, updates)
  }

  /** `bindData(data, updates)`: the entries of the response object are walked. */
  function Bound(page: Page, d: Dom, data: Value, updates: bool): (r: Dom)
    ensures d.marked <= r.marked
    ensures !updates ==> r.marked == d.marked
    ensures !data.Obj? ==> r == d
  {
    if data.Obj? then BoundEntries(page, d, data, |data.fields|, updates) else d
  }

  /** The leaves the walk reaches, in order, each with its OWN key (never the parent's). */
  function LeavesOf(key: string, value: Value): seq<Write>
    decreases value, 1
  {
    match value
    case Leaf(t) => [(key, t)]
    case Null => []
    case Obj(fields) => LeavesUpTo(value, |fields|)
  }

  function LeavesUpTo(obj: Value, n: nat): seq<Write>
    requires obj.Obj? && n <= |obj.fields|
    decreases obj, 0, n
  {
    if n == 0 then []
    else LeavesUpTo(obj, n - 1) + LeavesOf(obj.fields[n - 1].0, obj.fields[n - 1].1)
  }

  function Leaves(data: Value): seq<Write>
  {
    if data.Obj? then LeavesUpTo(data, |data.fields|) else []
  }

  /** The writes applied one after another. */
  function WriteAll(page: Page, d: Dom, ws: seq<Write>, updates: bool): Dom
    decreases ws
  {
    if ws == [] then d else WriteAll(page, WriteLeaf(page, d, ws[0], updates), ws[1..], updates)
  }

  lemma {:induction false} WriteAllAppend(page: Page, d: Dom, a: seq<Write>, b: seq<Write>, updates: bool)
    ensures WriteAll(page, d, a + b, updates) == WriteAll(page, WriteAll(page, d, a, updates), b, updates)
    decreases a
  {
    if a != [] {
      assert (a + b)[0] == a[0] && (a + b)[1..] == a[1..] + b;
      WriteAllAppend(page, WriteLeaf(page, d, a[0], updates), a[1..], b, updates);
    } else {
      assert a + b == b;
    }
  }

  /** The recursive walk is the same as writing its leaves in order. */
  lemma {:induction false} BoundValueIsWriteAll(page: Page, d: Dom, key: string, value: Value, updates: bool)
    ensures BoundValue(page, d, key, value, updates) == WriteAll(page, d, LeavesOf(key, value), updates)
    decreases value, 1
  {
    match value
    case Leaf(t) =>
      assert WriteAll(page, d, [(key, t)], updates) == WriteAll(page, WriteLeaf(page, d, (key, t), updates), [], updates);
    case Null =>
    case Obj(fields) => BoundEntriesIsWriteAll(page, d, value, |fields|, updates);
  }

  lemma {:induction false} BoundEntriesIsWriteAll(page: Page, d: Dom, obj: Value, n: nat, updates: bool)
    requires obj.Obj? && n <= |obj.fields|
    ensures BoundEntries(page, d, obj, n, updates) == WriteAll(page, d, LeavesUpTo(obj, n), updates)
    decreases obj, 0, n
  {
    if n > 0 {
      var e := obj.fields[n - 1];
      BoundEntriesIsWriteAll(page, d, obj, n - 1, updates);
      var mid := BoundEntries(page, d, obj, n - 1, updates);
      BoundValueIsWriteAll(page, mid, e.0, e.1, updates);
      WriteAllAppend(page, d, LeavesUpTo(obj, n - 1), LeavesOf(e.0, e.1), updates);
    }
  }

  lemma BoundIsWriteAll(page: Page, d: Dom, data: Value, updates: bool)
    ensures Bound(page, d, data, updates) == WriteAll(page, d, Leaves(data), updates)
  {
    if data.Obj? {
      BoundEntriesIsWriteAll(page, d, data, |data.fields|, updates);
    }
  }

  /** `d` overlaid with what `w` wrote. */
  function Overlay(d: Dom, w: Dom): Dom
  {
    Dom(d.text + w.text, d.spanText + w.spanText, d.marked + w.marked)
  }

  const Blank := Dom(map[], map[], {})

  lemma WriteLeafOverlay(page: Page, d: Dom, w: Dom, x: Write, updates: bool)
    ensures WriteLeaf(page, Overlay(d, w), x, updates) == Overlay(d, WriteLeaf(page, w, x, updates))
  {
    var id := page.normalize(x.0);
    if id in page.spans {
      if page.spans[id] == 1 {
        assert (d.spanText + w.spanText)[id := x.1] == d.spanText + w.spanText[id := x.1];
      } else {
        assert (d.text + w.text)[id := x.1] == d.text + w.text[id := x.1];
      }
    }
  }

  /** Writes commute with overlaying: what a write produces does not depend on what it overwrites. */
  lemma {:induction false} WriteAllOverlay(page: Page, d: Dom, w: Dom, ws: seq<Write>, updates: bool)
    ensures WriteAll(page, Overlay(d, w), ws, updates) == Overlay(d, WriteAll(page, w, ws, updates))
    decreases ws
  {
    if ws != [] {
      WriteLeafOverlay(page, d, w, ws[0], updates);
      WriteAllOverlay(page, d, WriteLeaf(page, w, ws[0], updates), ws[1..], updates);
    }
  }

  lemma OverlayBlank(d: Dom)
    ensures Overlay(d, Blank) == d
  {
    assert d.text + map[] == d.text;
    assert d.spanText + map[] == d.spanText;
  }

  lemma OverlayAbsorbs(d: Dom, w: Dom)
    ensures Overlay(Overlay(d, w), w) == Overlay(d, w)
  {
    assert (d.text + w.text) + w.text == d.text + w.text;
    assert (d.spanText + w.spanText) + w.spanText == d.spanText + w.spanText;
  }

  /** Writing is what a blank page would receive, laid over the page. */
  lemma WriteAllIsOverlay(page: Page, d: Dom, ws: seq<Write>, updates: bool)
    ensures WriteAll(page, d, ws, updates) == Overlay(d, WriteAll(page, Blank, ws, updates))
  {
    OverlayBlank(d);
    WriteAllOverlay(page, d, Blank, ws, updates);
  }

  /** Writing the same leaves twice is writing them once. */
  lemma WriteAllTwice(page: Page, d: Dom, ws: seq<Write>, updates: bool)
    ensures WriteAll(page, WriteAll(page, d, ws, updates), ws, updates) == WriteAll(page, d, ws, updates)
  {
    var w := WriteAll(page, Blank, ws, updates);
    WriteAllIsOverlay(page, d, ws, updates);
    WriteAllIsOverlay(page, Overlay(d, w), ws, updates);
    OverlayAbsorbs(d, w);
  }

  /** Binding is idempotent: the second pass rewrites the same texts and markers. */
  lemma BindTwice(page: Page, d: Dom, data: Value, updates: bool)
    ensures Bound(page, Bound(page, d, data, updates), data, updates) == Bound(page, d, data, updates)
  {
    BoundIsWriteAll(page, d, data, updates);
    BoundIsWriteAll(page, Bound(page, d, data, updates), data, updates);
    WriteAllTwice(page, d, Leaves(data), updates);
  }

  /** The ids the writes land on: normalised keys of elements that exist. */
  function Targets(page: Page, ws: seq<Write>): set<string>
  {
    set i | 0 <= i < |ws| && page.normalize(ws[i].0) in page.spans :: page.normalize(ws[i].0)
  }

  /** Markers are added exactly to the written elements, and only when `updates` is set; none is removed. */
  lemma {:induction false} WriteAllMarks(page: Page, d: Dom, ws: seq<Write>, updates: bool)
    ensures WriteAll(page, d, ws, updates).marked == d.marked + (if updates then Targets(page, ws) else {})
    decreases ws
  {
    if ws != [] {
      WriteAllMarks(page, WriteLeaf(page, d, ws[0], updates), ws[1..], updates);
      var id := page.normalize(ws[0].0);
      assert Targets(page, ws) == (if id in page.spans then {id} else {}) + Targets(page, ws[1..]) by {
        forall t | t in Targets(page, ws)
          ensures t in (if id in page.spans then {id} else {}) + Targets(page, ws[1..])
        {
          var i :| 0 <= i < |ws| && page.normalize(ws[i].0) in page.spans && page.normalize(ws[i].0) == t;
          if i > 0 { assert ws[1..][i - 1] == ws[i]; }
        }
        forall t | t in Targets(page, ws[1..]) ensures t in Targets(page, ws) {
          var i :| 0 <= i < |ws[1..]| && page.normalize(ws[1..][i].0) in page.spans && page.normalize(ws[1..][i].0) == t;
          assert ws[i + 1] == ws[1..][i];
        }
      }
    }
  }

  /** Writes whose keys do not normalise to `id` leave that element alone. */
  lemma {:induction false} WriteAllFrame(page: Page, d: Dom, ws: seq<Write>, updates: bool, id: string)
    requires forall i :: 0 <= i < |ws| ==> page.normalize(ws[i].0) != id
    ensures var r := WriteAll(page, d, ws, updates);
      (id in r.text <==> id in d.text) && (id in d.text ==> r.text[id] == d.text[id]) &&
      (id in r.spanText <==> id in d.spanText) && (id in d.spanText ==> r.spanText[id] == d.spanText[id]) &&
      (id in r.marked <==> id in d.marked)
    decreases ws
  {
    if ws != [] {
      WriteAllFrame(page, WriteLeaf(page, d, ws[0], updates), ws[1..], updates, id);
    }
  }

  /**
   * The last write to an element wins: the leaf `(key, t)` shows `t` when no
   * later leaf's key normalises to the same id — in the single span when the
   * element has exactly one, in the element's own text otherwise.
   */
  lemma LastWriteWins(page: Page, d: Dom, before: seq<Write>, key: string, t: string, after: seq<Write>, updates: bool)
    requires page.normalize(key) in page.spans
    requires forall i :: 0 <= i < |after| ==> page.normalize(after[i].0) != page.normalize(key)
    ensures var id := page.normalize(key);
      var r := WriteAll(page, d, before + [(key, t)] + after, updates);
      if page.spans[id] == 1 then id in r.spanText && r.spanText[id] == t
      else id in r.text && r.text[id] == t
  {
    WriteAllAppend(page, d, before + [(key, t)], after, updates);
    WriteAllAppend(page, d, before, [(key, t)], updates);
    var mid := WriteAll(page, d, before, updates);
    assert WriteAll(page, mid, [(key, t)], updates) == WriteLeaf(page, mid, (key, t), updates);
    WriteAllFrame(page, WriteLeaf(page, mid, (key, t), updates), after, updates, page.normalize(key));
  }

  /** The text of the response's leaves and nothing else reaches the page: the target of a write keeps its kind. */
  lemma {:induction false} WriteAllKinds(page: Page, d: Dom, ws: seq<Write>, updates: bool, id: string)
    ensures var r := WriteAll(page, d, ws, updates);
      (id in r.text && (id !in d.text || r.text[id] != d.text[id]) ==> id in page.spans && page.spans[id] != 1) &&
      (id in r.spanText && (id !in d.spanText || r.spanText[id] != d.spanText[id]) ==> id in page.spans && page.spans[id] == 1)
    decreases ws
  {
    if ws != [] {
      WriteAllKinds(page, WriteLeaf(page, d, ws[0], updates), ws[1..], updates, id);
    }
  }
}
