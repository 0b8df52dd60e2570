// A model of BKGraph's popup context menu (src/widgets/context.cpp):
// a list of labelled items anchored at a screen position, whose width grows
// to fit the widest rendered label.

module Widgets {

  /** A two-dimensional integer vector (the program's vec2i). */
  datatype Vec2i = Vec2i(x: int, y: int)

  /** The bound callback of an item: an opaque method reference that the menu
      copies but never inspects or calls. */
  datatype Callback = NoCallback | Handler(method_id: nat)

  /** A menu entry: its label and its callback. The datatype constructor is
      the model of the Item constructor, which only stores both. */
  datatype Item = Item(text: string, call: Callback)

  /** The value a default-constructed vector slot holds before it is overwritten. */
  const BlankItem := Item("", NoCallback)

  /** The widget a menu is anchored to; only its identity matters here. */
  class Widget {}

  type PositiveInt = n: int | n > 0 witness 1

  /** Height of one menu row (Default::itemHeight); its value is a program
      default that is not part of this model, only that it is positive. */
  const ItemHeight: PositiveInt

  /** Horizontal padding on each side of a label (Default::textOffset). */
  const TextOffset: nat

  /** The font set's text measurement: rendered width of a text at a height. */
  type Measure = (string, int) -> int

  /** The width an item needs so that its label is not clipped. */
  function ItemWidth(item: Item, measure: Measure): int
  {
    measure(item.text, ItemHeight) + TextOffset * 2
  }

  /** The menu width that measuring `items` in order gives, starting from the
      requested width `sizeX`: each item raises the width when it needs more. */
  function MenuWidth(items: seq<Item>, sizeX: int, measure: Measure): int
    decreases |items|
  {
    if items == [] then sizeX
    else
      var w := MenuWidth(items[..|items| - 1], sizeX, measure);
      var len := ItemWidth(items[|items| - 1], measure);
      if len > w then len else w
  }

  /** No label of `items` is clipped at width `w`. */
  predicate FitsAll(items: seq<Item>, w: int, measure: Measure)
  {
    forall k :: 0 <= k < |items| ==> ItemWidth(items[k], measure) <= w
  }

  /** The menu is never narrower than requested. */
  lemma {:induction false} WidthAtLeastRequested(items: seq<Item>, sizeX: int, measure: Measure)
    ensures MenuWidth(items, sizeX, measure) >= sizeX
  {
    if items != [] {
      WidthAtLeastRequested(items[..|items| - 1], sizeX, measure);
    }
  }

  /** No item's label is clipped at the menu width. */
  lemma {:induction false} WidthFitsItems(items: seq<Item>, sizeX: int, measure: Measure)
    ensures FitsAll(items, MenuWidth(items, sizeX, measure), measure)
  {
    if items != [] {
      var front := items[..|items| - 1];
      WidthFitsItems(front, sizeX, measure);
      forall k | 0 <= k < |items|
        ensures ItemWidth(items[k], measure) <= MenuWidth(items, sizeX, measure)
      {
        if k < |front| {
          assert items[k] == front[k];
        }
      }
    }
  }

  /** The menu width is the requested width or the width of one of the items. */
  lemma {:induction false} WidthAttained(items: seq<Item>, sizeX: int, measure: Measure)
    ensures var w := MenuWidth(items, sizeX, measure);
      w == sizeX || exists k :: 0 <= k < |items| && w == ItemWidth(items[k], measure)
  {
    if items != [] {
      var front := items[..|items| - 1];
      WidthAttained(front, sizeX, measure);
      var w := MenuWidth(items, sizeX, measure);
      if w != sizeX {
        if w == ItemWidth(items[|items| - 1], measure) {
          assert 0 <= |items| - 1 < |items|;
        } else {
          var k :| 0 <= k < |front| && w == ItemWidth(front[k], measure);
          assert items[k] == front[k];
        }
      }
    }
  }

  /** The menu width is the least width that is at least the requested one and
      clips no label: the maximum of the requested width and all item widths. */
  lemma {:induction false} WidthIsLeast(items: seq<Item>, sizeX: int, measure: Measure, w: int)
    requires w >= sizeX && FitsAll(items, w, measure)
    ensures MenuWidth(items, sizeX, measure) <= w
  {
    WidthAttained(items, sizeX, measure);
  }

  /** Starting from a width that already fits every label leaves it unchanged. */
  lemma {:induction false} WidthOfFitting(items: seq<Item>, w: int, measure: Measure)
    requires FitsAll(items, w, measure)
    ensures MenuWidth(items, w, measure) == w
  {
    if items != [] {
      var front := items[..|items| - 1];
      assert FitsAll(front, w, measure) by {
        forall k | 0 <= k < |front| ensures ItemWidth(front[k], measure) <= w {
          assert front[k] == items[k];
        }
      }
      WidthOfFitting(front, w, measure);
      assert ItemWidth(items[|items| - 1], measure) <= w;
    }
  }

  /** Measuring the same items again from the width they produced changes nothing. */
  lemma WidthIdempotent(items: seq<Item>, sizeX: int, measure: Measure)
    ensures MenuWidth(items, MenuWidth(items, sizeX, measure), measure)
         == MenuWidth(items, sizeX, measure)
  {
    WidthFitsItems(items, sizeX, measure);
    WidthOfFitting(items, MenuWidth(items, sizeX, measure), measure);
  }

  /** vector::resize: keep the first `n` elements, pad with blank items. */
  function Resize(s: seq<Item>, n: nat): (r: seq<Item>)
    ensures |r| == n
    ensures forall k :: 0 <= k < n && k < |s| ==> r[k] == s[k]
  {
    if n <= |s| then s[..n] else s + seq(n - |s|, _ => BlankItem)
  }

  /** A popup menu anchored to a widget. */
  class Context {
    var position: Vec2i
    var size: Vec2i
    var widget: Widget?
    var items: seq<Item>

    /** No item's label is clipped at the current width. */
    ghost predicate Unclipped(measure: Measure)
      reads this
    {
      FitsAll(items, size.x, measure)
    }

    /** Stores anchor, size and widget, then sets the items as SetItems does. */
    constructor (wgt: Widget?, itms: seq<Item>, pos: Vec2i, siz: Vec2i, measure: Measure)
      ensures position == pos && widget == wgt && size.y == siz.y
      ensures items == itms && size.x == MenuWidth(itms, siz.x, measure)
      ensures size.x >= siz.x && Unclipped(measure)
    {
      position := pos;
      size := siz;
      widget := wgt;
      items := [];
      new;
      SetItems(itms, siz.x, measure);
    }

    /** Replaces the items and widens the menu to the requested width or the
        widest label, whichever is larger. */
    method SetItems(newItems: seq<Item>, sizeX: int, measure: Measure)
      modifies this`items, this`size
      ensures items == newItems
      ensures size.x == MenuWidth(newItems, sizeX, measure)
      ensures size.x >= sizeX && Unclipped(measure)
      ensures size.y == old(size.y) && position == old(position) && widget == old(widget)
    {
      size := size.(x := sizeX);
      items := Resize(items, |newItems|);
      var i := 0;
      while i != |items|
        invariant |items| == |newItems| && 0 <= i <= |items|
        invariant items[..i] == newItems[..i]
        invariant size.x == MenuWidth(newItems[..i], sizeX, measure)
        invariant size.y == old(size.y)
      {
        items := items[i := newItems[i]];
        var len := ItemWidth(items[i], measure);
        if len > size.x {
          size := size.(x := len);
        }
        assert newItems[..i + 1][..i] == newItems[..i];
        i := i + 1;
      }
      assert items == items[..i] && newItems == newItems[..i];
      WidthAtLeastRequested(newItems, sizeX, measure);
      WidthFitsItems(newItems, sizeX, measure);
    }

    /** Screen position of item `id`: rows stacked downwards from the anchor. */
    function ItemPos(id: nat): Vec2i
      reads this
    {
      Vec2i(position.x, position.y + id * ItemHeight)
    }
  }

  /** The first item sits at the menu's anchor. */
  lemma ItemPosAnchor(c: Context)
    ensures c.ItemPos(0) == c.position
  {
  }

  /** Consecutive items share their column and are exactly one row apart. */
  lemma ItemPosStep(c: Context, id: nat)
    ensures c.ItemPos(id + 1).x == c.ItemPos(id).x
    ensures c.ItemPos(id + 1).y == c.ItemPos(id).y + ItemHeight
  {
  }

  /** Later items sit strictly lower than earlier ones. */
  lemma ItemPosIncreasing(c: Context, i: nat, j: nat)
    requires i < j
    ensures c.ItemPos(i).y < c.ItemPos(j).y
  {
  }

  /** Re-applying a menu's own items and width, as the menu stands after the
      constructor or any SetItems, leaves both unchanged. */
  method ReapplyItems(c: Context, measure: Measure)
    requires c.Unclipped(measure)
    modifies c
    ensures c.items == old(c.items) && c.size == old(c.size)
    ensures c.position == old(c.position) && c.widget == old(c.widget)
  {
    WidthOfFitting(c.items, c.size.x, measure);
    c.SetItems(c.items, c.size.x, measure);
  }
}
