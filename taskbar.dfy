/**
 * The `taskBar` widget of lib/taskBar.js: the item list that `add` appends
 * to and `remove` splices from, the active and hover items the item
 * handlers set, the singleton guard and id allocation of construction and
 * `init`, the rect defaulting of `init`, and the layout of `setRect`.
 *
 * `raiseEvent` is the environment's answer: an event named in
 * `Env.cancelled` is cancelled by its handlers. The client size is part of
 * the environment. DOM nodes and user callbacks are opaque handles; the
 * element rect `updateElementRect` receives is kept on the bar and items.
 */
module TaskBar {
  import opened Base

  /** An opaque host value: a DOM node, a callback or an item title. */
  datatype Handle = Handle(id: nat)

  datatype Rect = Rect(x: int, y: int, w: int, h: int)

  /** `args.rect`: each member may be missing. */
  datatype RectArg = RectArg(x: Option<int>, y: Option<int>, w: Option<int>, h: Option<int>)

  /** The members of `Nina.UI.Style.taskBar` the layout uses. */
  datatype Style = Style(rect: Rect, borderSize: int, itemRect: Rect, paddingL: int, paddingR: int)

  datatype EventName =
    | InitEvent | UpdateRectEvent | UpdateStyleEvent | AddItemEvent | RemoveItemEvent
    | ItemClickEvent | ItemMouseoverEvent | ItemMouseoutEvent

  /** The client area size and the events whose handlers cancel. */
  datatype Env = Env(clientW: int, clientH: int, cancelled: set<EventName>)

  /** What `add` and `remove` hand back: the bar itself or the new item. */
  datatype Returned = TheBar | TheItem(item: Item)

  /** A user callback applied by an item handler, with the item it belongs to. */
  datatype Invocation = Invocation(callback: Handle, item: Item)

  /** `v || d` for a number: `undefined` and `0` are falsy. */
  function OrInt(v: Option<int>, d: int): (r: int)
    ensures v.Some? && v.value != 0 ==> r == v.value
    ensures v == None || v == Some(0) ==> r == d
  {
    if v.Some? && v.value != 0 then v.value else d
  }

  /**
   * The rect `init` builds (lib/taskBar.js:234-240): each member of
   * `args.rect` that is given and non-zero, the style's value otherwise.
   */
  function DefaultRect(arg: Option<RectArg>, d: Rect): (r: Rect)
    ensures arg.None? ==> r == d
    ensures arg.Some? ==> r == Rect(OrInt(arg.value.x, d.x), OrInt(arg.value.y, d.y),
                                    OrInt(arg.value.w, d.w), OrInt(arg.value.h, d.h))
    ensures d.w != 0 && d.h != 0 ==> r.w != 0 && r.h != 0
  {
    var a := arg.GetOr(RectArg(None, None, None, None));
    Rect(OrInt(a.x, d.x), OrInt(a.y, d.y), OrInt(a.w, d.w), OrInt(a.h, d.h))
  }

  /** An explicit zero in `args.rect` is replaced by the style's value. */
  lemma ZeroRectFallsBack(d: Rect)
    ensures DefaultRect(Some(RectArg(Some(0), Some(0), Some(0), Some(0))), d) == d
  {
  }

  /**
   * The bar's element rect (lib/taskBar.js:271-275): as wide as the client
   * area, `rect.h` high, at `rect.x`, its bottom edge `rect.y` below the
   * client area's bottom less the border.
   */
  function BarRect(r: Rect, clientW: int, clientH: int, borderSize: int): (p: Rect)
    ensures p.w == clientW && p.h == r.h && p.x == r.x
    ensures p.y + p.h + borderSize == clientH + r.y
  {
    Rect(r.x, r.y + clientH - r.h - borderSize, clientW, r.h)
  }

  /** The text clip width of every item (line 286): the item width less both paddings. */
  function ClipWidth(s: Style): (c: int)
    ensures c + s.paddingL + s.paddingR == s.itemRect.w
  {
    s.itemRect.w - s.paddingR - s.paddingL
  }

  // ---------------------------------------------------------------------
  // The splice loop of `remove`
  // ---------------------------------------------------------------------

  /**
   * The splice-and-advance of the loop at lib/taskBar.js:364-370 from index
   * `x` on, without the `removeItem` event and the `removeChild` call of
   * lines 366-367: a matching element is spliced out and the index still
   * advances, so the element that moves into its place is not examined.
   */
  function SpliceFrom<T(==)>(s: seq<T>, v: T, x: nat): (r: seq<T>)
    ensures |r| <= |s|
    decreases |s| - x
  {
    if x >= |s| then s
    else if s[x] == v then SpliceFrom(s[..x] + s[x + 1..], v, x + 1)
    else SpliceFrom(s, v, x + 1)
  }

  predicate Distinct<T(==)>(s: seq<T>)
  {
    forall i, j :: 0 <= i < j < |s| ==> s[i] != s[j]
  }

  /** Splicing drops copies of `v` only: every other element keeps its number of occurrences. */
  lemma {:induction false} SpliceRemovesOnly<T>(s: seq<T>, v: T, x: nat)
    ensures forall e :: e != v ==> multiset(SpliceFrom(s, v, x))[e] == multiset(s)[e]
    decreases |s| - x
  {
    if x < |s| {
      if s[x] == v {
        var t := s[..x] + s[x + 1..];
        SpliceRemovesOnly(t, v, x + 1);
        assert s == s[..x] + [s[x]] + s[x + 1..];
        assert multiset(s) == multiset(t) + multiset{v};
      } else {
        SpliceRemovesOnly(s, v, x + 1);
      }
    }
  }

  /** The part of the list before the start index is left as it was. */
  lemma {:induction false} SpliceKeepsPrefix<T>(s: seq<T>, v: T, x: nat)
    requires x <= |s|
    ensures x <= |SpliceFrom(s, v, x)| && SpliceFrom(s, v, x)[..x] == s[..x]
    decreases |s| - x
  {
    if x < |s| {
      if s[x] == v {
        var t := s[..x] + s[x + 1..];
        if x + 1 <= |t| {
          SpliceKeepsPrefix(t, v, x + 1);
          assert SpliceFrom(t, v, x + 1)[..x] == SpliceFrom(t, v, x + 1)[..x + 1][..x];
        }
        assert t[..x] == s[..x];
      } else {
        SpliceKeepsPrefix(s, v, x + 1);
        assert SpliceFrom(s, v, x + 1)[..x] == SpliceFrom(s, v, x + 1)[..x + 1][..x];
      }
    }
  }

  /** Removing an element that is not there changes nothing. */
  lemma {:induction false} SpliceAbsent<T>(s: seq<T>, v: T, x: nat)
    requires forall k :: x <= k < |s| ==> s[k] != v
    ensures SpliceFrom(s, v, x) == s
    decreases |s| - x
  {
    if x < |s| {
      SpliceAbsent(s, v, x + 1);
    }
  }

  /**
   * In a list without repetitions, removing an element drops exactly that
   * element and keeps the others in their order.
   */
  lemma {:induction false} SpliceUnique<T>(s: seq<T>, v: T, k: nat, x: nat)
    requires Distinct(s) && k < |s| && s[k] == v && x <= k
    ensures SpliceFrom(s, v, x) == s[..k] + s[k + 1..]
    decreases k - x
  {
    if x < k {
      assert s[x] != v;
      SpliceUnique(s, v, k, x + 1);
    } else {
      var t := s[..k] + s[k + 1..];
      forall j | k + 1 <= j < |t| ensures t[j] != v {
        assert t[j] == s[j + 1];
      }
      SpliceAbsent(t, v, k + 1);
    }
  }

  /** `remove` keeps a list without repetitions free of them. */
  lemma SpliceKeepsDistinct<T>(s: seq<T>, v: T)
    requires Distinct(s)
    ensures Distinct(SpliceFrom(s, v, 0))
  {
    if k :| 0 <= k < |s| && s[k] == v {
      SpliceUnique(s, v, k, 0);
      var t := s[..k] + s[k + 1..];
      forall i, j | 0 <= i < j < |t| ensures t[i] != t[j] {
        var i' := if i < k then i else i + 1;
        var j' := if j < k then j else j + 1;
        assert t[i] == s[i'] && t[j] == s[j'];
      }
    } else {
      SpliceAbsent(s, v, 0);
    }
  }

  /**
   * As written the loop skips the element after a match, so of two
   * adjacent equal entries one survives. `add` never lets this arise: every
   * item it appends is a new object.
   */
  lemma SpliceSkipsAdjacentRepeat<T>(a: T)
    ensures SpliceFrom([a, a], a, 0) == [a]
  {
    assert [a, a][..0] + [a, a][1..] == [a];
  }

  // ---------------------------------------------------------------------
  // Items and the bar
  // ---------------------------------------------------------------------

  /** A task bar item (lines 315-322) with the rect and clip width its element was given. */
  class Item {
    const obj: Handle
    const click: Option<Handle>
    const text: Handle
    const mouseover: Option<Handle>
    const mouseout: Option<Handle>
    var elementRect: Option<Rect>
    var clipWidth: Option<int>

    constructor (obj: Handle, click: Option<Handle>, text: Handle, over: Option<Handle>, out: Option<Handle>)
      ensures this.obj == obj && this.click == click && this.text == text
      ensures mouseover == over && mouseout == out
      ensures elementRect.None? && clipWidth.None?
    {
      this.obj, this.click, this.text := obj, click, text;
      mouseover, mouseout := over, out;
      elementRect, clipWidth := None, None;
    }
  }

  /** `Nina.UI.widgets.taskBar` and `Nina.UI.widgetIdCount`. */
  class Registry {
    var taskBar: TaskBar?
    var widgetIdCount: int

    constructor (count: int)
      ensures taskBar == null && widgetIdCount == count
    {
      taskBar, widgetIdCount := null, count;
    }
  }

  class TaskBar {
    const style: Style
    var items: seq<Item>
    var activeItem: Item?
    var hoverItem: Item?
    /** `None` until `init` runs uncancelled. */
    var id: Option<int>
    var rect: Option<Rect>
    var barRect: Option<Rect>
    /** The user callbacks the item handlers applied, oldest first. */
    var invoked: seq<Invocation>

    /** The items are distinct objects, as `add` creates them. */
    predicate Valid()
      reads this
    {
      Distinct(items)
    }

    /** The layout `setRect()` gives the bar and every item for client area `env`. */
    predicate Placed(env: Env)
      reads this, items
    {
      rect.Some? &&
      barRect == Some(BarRect(rect.value, env.clientW, env.clientH, style.borderSize)) &&
      forall i :: i in items ==> i.elementRect == Some(style.itemRect) && i.clipWidth == Some(ClipWidth(style))
    }

    /** The fields lines 43-47 set up, before `init`. */
    constructor (style: Style)
      ensures this.style == style && items == [] && activeItem == null && hoverItem == null
      ensures id.None? && rect.None? && barRect.None? && invoked == []
    {
      this.style := style;
      items, activeItem, hoverItem := [], null, null;
      id, rect, barRect, invoked := None, None, None, [];
    }

    /**
     * `init` (lines 227-259): unless cancelled, take the next widget id,
     * register as `Nina.UI.widgets.taskBar`, default the rect, then lay out.
     */
    method Init(reg: Registry, rectArg: Option<RectArg>, env: Env)
      modifies this, reg, items
      ensures InitEvent in env.cancelled ==> unchanged(this, reg) && unchanged(items)
      ensures InitEvent !in env.cancelled ==>
                id == Some(old(reg.widgetIdCount)) && reg.widgetIdCount == old(reg.widgetIdCount) + 1 &&
                reg.taskBar == this && rect == Some(DefaultRect(rectArg, style.rect))
      ensures items == old(items) && activeItem == old(activeItem) && hoverItem == old(hoverItem)
      ensures invoked == old(invoked)
      ensures InitEvent !in env.cancelled && UpdateRectEvent !in env.cancelled ==> Placed(env)
      ensures UpdateRectEvent in env.cancelled ==> barRect == old(barRect) && unchanged(items)
    {
      if InitEvent in env.cancelled {
        return;
      }
      id := Some(reg.widgetIdCount);
      reg.widgetIdCount := reg.widgetIdCount + 1;
      reg.taskBar := this;
      rect := Some(DefaultRect(rectArg, style.rect));
      SetRect(None, env);
    }

    /**
     * `setRect` (lines 264-289): unless cancelled, place the bar from
     * `given` (or the bar's own rect) and give every item the style's item
     * rect and clip width.
     */
    method SetRect(given: Option<Rect>, env: Env)
      requires given.Some? || rect.Some?
      modifies this, items
      ensures items == old(items) && activeItem == old(activeItem) && hoverItem == old(hoverItem)
      ensures id == old(id) && rect == old(rect) && invoked == old(invoked)
      ensures UpdateRectEvent in env.cancelled ==> unchanged(this) && unchanged(items)
      ensures UpdateRectEvent !in env.cancelled ==>
                barRect == Some(BarRect(if given.Some? then given.value else rect.value, env.clientW, env.clientH, style.borderSize)) &&
                forall i :: i in items ==> i.elementRect == Some(style.itemRect) && i.clipWidth == Some(ClipWidth(style))
    {
      if UpdateRectEvent in env.cancelled {
        return;
      }
      var r := if given.Some? then given.value else rect.value;
      barRect := Some(BarRect(r, env.clientW, env.clientH, style.borderSize));
      var x := 0;
      while x < |items|
        invariant 0 <= x <= |items|
        invariant items == old(items) && activeItem == old(activeItem) && hoverItem == old(hoverItem)
        invariant id == old(id) && rect == old(rect) && invoked == old(invoked)
        invariant barRect == Some(BarRect(r, env.clientW, env.clientH, style.borderSize))
        invariant forall k :: 0 <= k < x ==>
                    items[k].elementRect == Some(style.itemRect) && items[k].clipWidth == Some(ClipWidth(style))
      {
        items[x].elementRect := Some(style.itemRect);
        items[x].clipWidth := Some(ClipWidth(style));
        x := x + 1;
      }
    }

    /**
     * `add` (lines 313-360): a new item, appended unless the `addItem`
     * event cancels, after which the bar is redrawn.
     */
    method Add(obj: Handle, click: Option<Handle>, text: Handle, over: Option<Handle>, out: Option<Handle>, env: Env)
      returns (r: Returned)
      requires Valid() && rect.Some?
      modifies this, items
      ensures Valid()
      ensures activeItem == old(activeItem) && hoverItem == old(hoverItem)
      ensures id == old(id) && rect == old(rect) && invoked == old(invoked)
      ensures AddItemEvent in env.cancelled ==> r == TheBar && unchanged(this) && unchanged(items)
      ensures AddItemEvent !in env.cancelled ==>
                r.TheItem? && fresh(r.item) && items == old(items) + [r.item] &&
                r.item.obj == obj && r.item.click == click && r.item.text == text &&
                r.item.mouseover == over && r.item.mouseout == out
      ensures AddItemEvent !in env.cancelled && UpdateRectEvent !in env.cancelled ==> Placed(env)
      ensures UpdateRectEvent in env.cancelled ==> barRect == old(barRect) && unchanged(old(items))
      ensures AddItemEvent !in env.cancelled && UpdateRectEvent in env.cancelled ==>
                r.item.elementRect.None? && r.item.clipWidth.None?
    {
      var item := new Item(obj, click, text, over, out);
      if AddItemEvent in env.cancelled {
        return TheBar;
      }
      items := items + [item];
      SetRect(None, env);
      r := TheItem(item);
    }

    /**
     * `remove` (lines 361-372) as written: the splice loop, stopped before
     * any change when the `removeItem` event of a match cancels, then the
     * bar is redrawn. The active and hover items are not cleared.
     */
    method Remove(item: Item, env: Env) returns (r: Returned)
      requires Valid() && rect.Some?
      modifies this, items
      ensures r == TheBar && Valid()
      ensures activeItem == old(activeItem) && hoverItem == old(hoverItem)
      ensures id == old(id) && rect == old(rect) && invoked == old(invoked)
      ensures item in old(items) && RemoveItemEvent in env.cancelled ==> unchanged(this) && unchanged(items)
      ensures !(item in old(items) && RemoveItemEvent in env.cancelled) ==>
                items == SpliceFrom(old(items), item, 0) &&
                (UpdateRectEvent !in env.cancelled ==> Placed(env))
      ensures UpdateRectEvent in env.cancelled ==> barRect == old(barRect) && unchanged(old(items))
      ensures forall i :: i in old(items) && i !in items ==> unchanged(i)
    {
      r := TheBar;
      var s := items;
      var x := 0;
      while x < |s|
        invariant SpliceFrom(s, item, x) == SpliceFrom(items, item, 0)
        invariant Distinct(s)
        invariant s == items || item !in s
        invariant forall i :: i in s ==> i in items
        invariant RemoveItemEvent in env.cancelled ==> s == items && forall k :: 0 <= k < x && k < |s| ==> s[k] != item
        decreases |s| - x
      {
        if s[x] == item {
          if RemoveItemEvent in env.cancelled {
            return;
          }
          var t := s[..x] + s[x + 1..];
          forall i, j | 0 <= i < j < |t| ensures t[i] != t[j] {
            var i' := if i < x then i else i + 1;
            var j' := if j < x then j else j + 1;
            assert t[i] == s[i'] && t[j] == s[j'];
          }
          forall k | 0 <= k < |t| ensures t[k] != item {
            var k' := if k < x then k else k + 1;
            assert t[k] == s[k'];
          }
          s := t;
        }
        x := x + 1;
      }
      if RemoveItemEvent in env.cancelled {
        SpliceAbsent(items, item, 0);
      }
      assert forall k :: 0 <= k < |s| ==> s[k] in items;
      items := s;
      SetRect(None, env);
    }

    /** The item's `onclick` (lines 325-331). */
    method ItemClick(item: Item, env: Env)
      modifies this
      ensures ItemClickEvent in env.cancelled ==> unchanged(this)
      ensures ItemClickEvent !in env.cancelled ==>
                activeItem == item &&
                invoked == old(invoked) + (if item.click.Some? then [Invocation(item.click.value, item)] else [])
      ensures items == old(items) && hoverItem == old(hoverItem) && id == old(id) && rect == old(rect)
      ensures barRect == old(barRect)
    {
      if ItemClickEvent in env.cancelled {
        return;
      }
      activeItem := item;
      if item.click.Some? {
        invoked := invoked + [Invocation(item.click.value, item)];
      }
    }

    /** The item's `onmouseover` (lines 332-340). */
    method ItemMouseover(item: Item, env: Env)
      modifies this
      ensures ItemMouseoverEvent in env.cancelled ==> unchanged(this)
      ensures ItemMouseoverEvent !in env.cancelled ==>
                hoverItem == item &&
                invoked == old(invoked) + (if item.mouseover.Some? then [Invocation(item.mouseover.value, item)] else [])
      ensures items == old(items) && activeItem == old(activeItem) && id == old(id) && rect == old(rect)
      ensures barRect == old(barRect)
    {
      if ItemMouseoverEvent in env.cancelled {
        return;
      }
      hoverItem := item;
      if item.mouseover.Some? {
        invoked := invoked + [Invocation(item.mouseover.value, item)];
      }
    }

    /** The item's `onmouseout` (lines 341-348): the hover item is left as it was. */
    method ItemMouseout(item: Item, env: Env)
      modifies this
      ensures ItemMouseoutEvent in env.cancelled ==> unchanged(this)
      ensures ItemMouseoutEvent !in env.cancelled ==>
                invoked == old(invoked) + (if item.mouseout.Some? then [Invocation(item.mouseout.value, item)] else [])
      ensures items == old(items) && activeItem == old(activeItem) && hoverItem == old(hoverItem)
      ensures id == old(id) && rect == old(rect) && barRect == old(barRect)
    {
      if ItemMouseoutEvent in env.cancelled {
        return;
      }
      if item.mouseout.Some? {
        invoked := invoked + [Invocation(item.mouseout.value, item)];
      }
    }
  }

  /**
   * `Nina.UI.taskBar(args)` (lines 34-47, 373-375): nothing when a task
   * bar is already registered; otherwise a new bar, initialised.
   */
  method CreateTaskBar(reg: Registry, rectArg: Option<RectArg>, style: Style, env: Env) returns (bar: TaskBar?)
    modifies reg
    ensures old(reg.taskBar) != null ==> bar == null && unchanged(reg)
    ensures old(reg.taskBar) == null ==>
              bar != null && fresh(bar) && bar.style == style && bar.items == [] &&
              bar.activeItem == null && bar.hoverItem == null && bar.Valid()
    ensures old(reg.taskBar) == null && InitEvent in env.cancelled ==>
              bar.id.None? && bar.rect.None? && unchanged(reg)
    ensures old(reg.taskBar) == null && InitEvent !in env.cancelled ==>
              bar.id == Some(old(reg.widgetIdCount)) && reg.widgetIdCount == old(reg.widgetIdCount) + 1 &&
              reg.taskBar == bar && bar.rect == Some(DefaultRect(rectArg, style.rect)) &&
              (UpdateRectEvent !in env.cancelled ==> bar.Placed(env))
    ensures old(reg.taskBar) == null && (InitEvent in env.cancelled || UpdateRectEvent in env.cancelled) ==>
              bar.barRect.None?
  {
    if reg.taskBar != null {
      return null;
    }
    bar := new TaskBar(style);
    bar.Init(reg, rectArg, env);
  }
}
