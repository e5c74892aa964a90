/// The inventory widgets of src/UI/ItemsList.cpp and src/UI/InventoryItem.cpp:
/// a scrolling list window over a shared vector of items, the item widgets it
/// shows, and the armor/hand slots that swap their item with one dragged out
/// of a list. The two classes call each other, so they share one module.
module InventoryUI {
  import opened Seqs
  import opened Outcomes
  import opened Objects

  /** 2^32: `unsigned int` arithmetic wraps modulo this. */
  const U32: int := 0x1_0000_0000

  /** A screen point. */
  datatype Point = Point(x: int, y: int)

  /** A widget size. */
  datatype Size = Size(width: nat, height: nat)

  function Add(a: Point, b: Point): Point
  {
    Point(a.x + b.x, a.y + b.y)
  }

  function Sub(a: Point, b: Point): Point
  {
    Point(a.x - b.x, a.y - b.y)
  }

  /** `size / 2`, component-wise, as a displacement. */
  function Half(s: Size): Point
  {
    Point(s.width / 2, s.height / 2)
  }

  /** `Rect::inRect(p, origin, size)`: `p` lies in the half-open box of `size` at `origin`. */
  predicate InRect(p: Point, origin: Point, size: Size)
  {
    origin.x <= p.x < origin.x + size.width && origin.y <= p.y < origin.y + size.height
  }

  /** `InventoryItem::Type`: in the list, in an armor/hand slot, or being dragged. */
  datatype ItemType = Inventory | Slot | Drag

  /** `InventoryItem::size`: fixed boxes for list and slot items, the widget's own `Base::size()` while dragged. */
  function SizeOf(t: ItemType, base: Size): (s: Size)
    ensures t == Inventory ==> s == Size(70, 49)
    ensures t == Slot ==> s == Size(90, 63)
    ensures t == Drag ==> s == base
  {
    match t
    case Inventory => Size(70, 49)
    case Slot => Size(90, 63)
    case Drag => base
  }

  /** Which texture `InventoryItem::texture` answers with. */
  datatype TextureChoice = NoTexture | InventoryTexture | SlotTexture | DragTexture

  /** Who emitted an "itemdragstop" event: a list dragging one of its items, or a slot item. */
  datatype DragSource = FromList(list: ItemsList) | FromSlot(slot: InventoryItem)

  /** `_items`: a vector of items that several lists and the inventory share. */
  class ItemVector {
    var contents: seq<GameObject?>

    constructor (contents: seq<GameObject?>)
      ensures this.contents == contents
    {
      this.contents := contents;
    }
  }

  /**
   * The list window: the items from `offset`, at most `n` of them. (The
   * `unsigned int` loop of `update` agrees with this as long as the vector
   * holds fewer than 2^32 items.)
   */
  function Window(c: seq<GameObject?>, offset: nat, n: nat): (w: seq<GameObject?>)
    ensures |w| <= n
    ensures offset < |c| ==> |w| == (if offset + n < |c| then n else |c| - offset)
    ensures forall k :: 0 <= k < |w| ==> offset + k < |c| && w[k] == c[offset + k]
  {
    if offset < |c| then c[offset..if offset + n < |c| then offset + n else |c|] else []
  }

  /** Scrolling down by one drops the top item of the window and shows the next one of the vector, if any. */
  lemma WindowScrollDown(c: seq<GameObject?>, offset: nat, n: nat)
    requires offset < |c| && n > 0
    ensures Window(c, offset + 1, n) == Window(c, offset, n)[1..] + (if offset + n < |c| then [c[offset + n]] else [])
  {
  }

  /**
   * The slot a drag starting at `y` picks: the `int` difference is converted
   * to `unsigned int` before the division by `_slotHeight`.
   */
  function DragIndex(y: int, top: int, slotHeight: nat): (index: nat)
    requires slotHeight > 0
    ensures 0 <= y - top < U32 ==> index == (y - top) / slotHeight
    ensures -U32 <= y - top < 0 ==> index == (y - top + U32) / slotHeight
  {
    ((y - top) % U32) / slotHeight
  }

  /** A point inside the list picks the slot it lies in; a point above it (within half the 32-bit range) picks no slot of a list at most `U32 / 2` pixels high. */
  lemma {:induction false} DragIndexPicks(y: int, top: int, slotHeight: nat, slots: nat)
    requires slotHeight > 0 && slotHeight * slots <= U32 / 2
    ensures top <= y < top + slotHeight * slots ==> DragIndex(y, top, slotHeight) == (y - top) / slotHeight < slots
    ensures top - U32 / 2 <= y < top ==> DragIndex(y, top, slotHeight) >= slots
  {
    if top <= y < top + slotHeight * slots {
      assert (y - top) % U32 == y - top;
      DivBelow(y - top, slotHeight, slots);
    }
    if top - U32 / 2 <= y < top {
      var d := (y - top) % U32;
      assert d == y - top + U32 && d >= U32 / 2;
      DivAtLeast(d, slotHeight, slots);
    }
  }

  lemma DivBelow(a: nat, h: nat, n: nat)
    requires h > 0 && a < h * n
    ensures a / h < n
  {
  }

  lemma DivAtLeast(a: nat, h: nat, n: nat)
    requires h > 0 && h * n <= a
    ensures a / h >= n
  {
    assert a == h * (a / h) + a % h;
    MulMono(h, a / h + 1, n);
  }

  lemma MulMono(h: nat, x: int, y: int)
    ensures x <= y ==> h * x <= h * y
  {
    assert h * y - h * x == h * (y - x);
  }

  /** Moving an item from one list's vector to another's keeps every item exactly once between them. */
  lemma TransferKeepsItems(dst: seq<GameObject?>, src: seq<GameObject?>, x: GameObject?)
    requires x in src
    ensures multiset(dst + [x]) + multiset(RemoveFirst(src, x)) == multiset(dst) + multiset(src)
  {
  }

  /** `UI::InventoryItem`: one item shown in a list, a slot, or under the mouse. */
  class InventoryItem {
    /** `_item`, null for an empty slot. */
    var item: GameObject?
    var itemType: ItemType
    /** `_oldType`: the type to restore when a drag ends. */
    var oldType: ItemType
    /** `position()`. */
    var position: Point
    /** `offset()`. */
    var offset: Point

    constructor (item: GameObject?)
      ensures this.item == item && itemType == Inventory && oldType == Inventory
      ensures position == Point(0, 0) && offset == Point(0, 0)
    {
      this.item := item;
      itemType, oldType := Inventory, Inventory;
      position, offset := Point(0, 0), Point(0, 0);
    }

    /** `size()` given the widget's `Base::size()`: only a dragged item's size depends on it. */
    function Size(base: Size): (s: Size)
      reads this
      ensures itemType == Drag ==> s == base
      ensures itemType != Drag ==> forall other: Size :: s == SizeOf(itemType, other)
    {
      SizeOf(itemType, base)
    }

    /** `pixel(pos)`: 0 without an item, otherwise 1 exactly when `pos` lies in the item's box. */
    function Pixel(pos: Point, base: Size): (r: nat)
      reads this
      ensures r <= 1
      ensures r == 1 <==> item != null && InRect(pos, Point(0, 0), Size(base))
    {
      if item == null then 0 else if InRect(pos, Point(0, 0), Size(base)) then 1 else 0
    }

    /** `texture()`: null without an item, otherwise the picture for the current type. */
    function Texture(): (t: TextureChoice)
      reads this
      ensures t == NoTexture <==> item == null
      ensures item != null ==> t == match itemType
        case Inventory => InventoryTexture
        case Slot => SlotTexture
        case Drag => DragTexture
    {
      if item == null then NoTexture
      else match itemType
        case Slot => SlotTexture
        case Drag => DragTexture
        case _ => InventoryTexture
    }

    /** An item answers inside the 70x49 box in a list and the 90x63 box in a slot, whatever the widget's own size, and inside the widget's own size while dragged. */
    lemma HitBoxByType(pos: Point, base: Size)
      requires item != null
      ensures itemType == Inventory ==> (Pixel(pos, base) == 1 <==> 0 <= pos.x < 70 && 0 <= pos.y < 49)
      ensures itemType == Slot ==> (Pixel(pos, base) == 1 <==> 0 <= pos.x < 90 && 0 <= pos.y < 63)
      ensures itemType == Drag ==> (Pixel(pos, base) == 1 <==> 0 <= pos.x < base.width && 0 <= pos.y < base.height)
    {
    }

    /** Every point the item answers to lies in a box that has a picture to show. */
    lemma PixelShowsTexture(pos: Point, base: Size)
      ensures Pixel(pos, base) == 1 ==> Texture() != NoTexture && InRect(pos, Point(0, 0), Size(base))
    {
    }

    /** `onMouseDragStart`: the current type is remembered and the item becomes a dragged one. */
    method OnMouseDragStart()
      modifies this`itemType, this`oldType
      ensures oldType == old(itemType) && itemType == Drag
    {
      oldType := itemType;
      itemType := Drag;
    }

    /** `onMouseDrag`: the offset follows the mouse movement. */
    method OnMouseDrag(eventOffset: Point)
      modifies this`offset
      ensures offset == Add(old(offset), eventOffset)
    {
      offset := Add(offset, eventOffset);
    }

    /** `onMouseDragStop`: the offset is reset, the remembered type comes back, and an "itemdragstop" at the mouse position is emitted. */
    method OnMouseDragStop(eventPos: Point) returns (emitted: Point)
      modifies this`itemType, this`offset
      ensures itemType == old(oldType) && offset == Point(0, 0) && emitted == eventPos
    {
      offset := Point(0, 0);
      itemType := oldType;
      emitted := eventPos;
    }

    /**
     * `onArmorDragStop`: a drop from a list onto this slot takes the dragged
     * item out of the list's vector, puts the slot's previous item (if any) at
     * its end, places the dragged item in the slot, and makes it the player's
     * armor when it is armor. A drop outside the slot, or from a non-list, does nothing.
     */
    method OnArmorDragStop(eventPos: Point, base: Size, source: DragSource, player: GameObject)
      requires source.FromList? ==> ListDropAllowed(source.list)
      modifies this`item, player`armorSlot
      modifies (if source.FromList? then {source.list} else {})`inventoryItems
      modifies if source.FromList? then {source.list.items} else {}
      ensures !InRect(eventPos, position, Size(base)) || source.FromSlot? ==>
        && item == old(item) && player.armorSlot == old(player.armorSlot)
        && (source.FromList? ==>
              && source.list.items.contents == old(source.list.items.contents)
              && source.list.inventoryItems == old(source.list.inventoryItems))
      ensures InRect(eventPos, position, Size(base)) && source.FromList? ==>
        var list := source.list;
        var x := old(list.draggedItem.item);
        && item == x
        && list.items.contents == SlotSwap(old(list.items.contents), x, old(item))
        && list.Shown() == Window(list.items.contents, list.slotOffset, list.slotsNumber)
        && list.slotOffset == old(list.slotOffset) && list.draggedItem == old(list.draggedItem)
        && player.armorSlot == if x != null && x.kind == ItemObject(Armor) then x else old(player.armorSlot)
    {
      if !InRect(eventPos, position, Size(base)) {
        return;
      }
      if source.FromList? {
        var itemObject := TakeFromList(source.list);
        if itemObject != null && itemObject.kind == ItemObject(Armor) {
          player.armorSlot := itemObject;
        }
      }
    }

    /**
     * `onHandDragStop`: as `onArmorDragStop` (the dragged item swaps places
     * with the slot's item) without touching the player's armor.
     */
    method OnHandDragStop(eventPos: Point, base: Size, source: DragSource)
      requires source.FromList? ==> ListDropAllowed(source.list)
      modifies this`item
      modifies (if source.FromList? then {source.list} else {})`inventoryItems
      modifies if source.FromList? then {source.list.items} else {}
      ensures !InRect(eventPos, position, Size(base)) || source.FromSlot? ==>
        && item == old(item)
        && (source.FromList? ==>
              && source.list.items.contents == old(source.list.items.contents)
              && source.list.inventoryItems == old(source.list.inventoryItems))
      ensures InRect(eventPos, position, Size(base)) && source.FromList? ==>
        var list := source.list;
        var x := old(list.draggedItem.item);
        && item == x
        && list.items.contents == SlotSwap(old(list.items.contents), x, old(item))
        && list.Shown() == Window(list.items.contents, list.slotOffset, list.slotsNumber)
        && list.slotOffset == old(list.slotOffset) && list.draggedItem == old(list.draggedItem)
    {
      if !InRect(eventPos, position, Size(base)) {
        return;
      }
      if source.FromList? {
        var _ := TakeFromList(source.list);
      }
    }

    /** What both slot handlers do with a list: the dragged item leaves the list, the slot's item (if any) joins it, the slot takes the dragged item. */
    method TakeFromList(list: ItemsList) returns (taken: GameObject?)
      requires ListDropAllowed(list)
      modifies this`item, list`inventoryItems, list.items
      ensures taken == old(list.draggedItem.item) && item == taken
      ensures list.items.contents == SlotSwap(old(list.items.contents), taken, old(item))
      ensures list.Shown() == Window(list.items.contents, list.slotOffset, list.slotsNumber)
      ensures list.slotOffset == old(list.slotOffset) && list.draggedItem == old(list.draggedItem)
    {
      var dragged := list.draggedItem;
      taken := dragged.item;
      list.RemoveItem(dragged);
      if item != null {
        list.AddItem(this);
      }
      item := taken;
    }
  }

  /** The list's vector after a slot swap: the dragged item's first occurrence goes, the slot's previous item (if any) is appended. */
  function SlotSwap(c: seq<GameObject?>, dragged: GameObject?, previous: GameObject?): (r: seq<GameObject?>)
    ensures previous == null ==> multiset(r) == multiset(c) - multiset{dragged}
    ensures previous != null ==> multiset(r) == multiset(c) - multiset{dragged} + multiset{previous}
  {
    RemoveFirst(c, dragged) + if previous != null then [previous] else []
  }

  /** What a slot handler needs of the list it takes an item from: a dragged item, and room for one more item in 32-bit indices. */
  ghost predicate ListDropAllowed(list: ItemsList)
    reads list, list.items
  {
    list.Valid() && list.draggedItem != null && |list.items.contents| + 1 < U32
  }

  /** `UI::ItemsList`: a window of `_slotsNumber` slots over a shared item vector. */
  class ItemsList {
    /** `_items`. */
    var items: ItemVector
    /** `_slotOffset`, an `unsigned int`. */
    var slotOffset: nat
    const slotsNumber: nat
    const slotWidth: nat
    const slotHeight: nat
    /** `_type`: the type dragged items get back when dropped. */
    const itemType: ItemType
    /** `position()`. */
    const position: Point
    /** `_inventoryItems`: the widgets of the window, top first. */
    var inventoryItems: seq<InventoryItem>
    /** `_draggedItem`. */
    var draggedItem: InventoryItem?

    /** The unsigned counters stay in range and the vector fits their indices. */
    ghost predicate Valid()
      reads this, items
    {
      slotOffset < U32 && 0 < slotsNumber < U32 && slotHeight > 0 && |items.contents| < U32
    }

    constructor (items: ItemVector, slotsNumber: nat, slotWidth: nat, slotHeight: nat, itemType: ItemType, position: Point)
      requires 0 < slotsNumber < U32 && slotHeight > 0 && |items.contents| < U32
      ensures Valid() && this.items == items && slotOffset == 0
      ensures this.slotsNumber == slotsNumber && this.slotWidth == slotWidth && this.slotHeight == slotHeight
      ensures this.itemType == itemType && this.position == position
      ensures inventoryItems == [] && draggedItem == null
    {
      this.items := items;
      slotOffset := 0;
      this.slotsNumber, this.slotWidth, this.slotHeight := slotsNumber, slotWidth, slotHeight;
      this.itemType, this.position := itemType, position;
      inventoryItems, draggedItem := [], null;
    }

    /** The items the window's widgets show, top first. */
    ghost function Shown(): (s: seq<GameObject?>)
      reads this, inventoryItems
      ensures |s| == |inventoryItems| && forall k :: 0 <= k < |s| ==> s[k] == inventoryItems[k].item
    {
      seq(|inventoryItems|, k reads this, inventoryItems requires 0 <= k < |inventoryItems| => inventoryItems[k].item)
    }

    /** `update`: the widgets are rebuilt, fresh, for exactly the items of the window. */
    method Update()
      requires Valid()
      modifies this`inventoryItems
      ensures Shown() == Window(items.contents, slotOffset, slotsNumber)
      ensures forall k :: 0 <= k < |inventoryItems| ==> fresh(inventoryItems[k])
    {
      inventoryItems := [];
      var end := (slotOffset + slotsNumber) % U32;
      var i := slotOffset;
      while i < |items.contents| && i != end
        invariant slotOffset <= i && (i <= |items.contents| || i == slotOffset)
        invariant slotOffset + slotsNumber < U32 ==> i <= slotOffset + slotsNumber
        invariant |inventoryItems| == i - slotOffset
        invariant forall k :: 0 <= k < |inventoryItems| ==>
          fresh(inventoryItems[k]) && inventoryItems[k].item == items.contents[slotOffset + k]
        decreases |items.contents| - i
      {
        var widget := new InventoryItem(items.contents[i]);
        inventoryItems := inventoryItems + [widget];
        i := (i + 1) % U32;
      }
      assert Shown() == Window(items.contents, slotOffset, slotsNumber);
    }

    /** `canScrollUp`: exactly when scrolling up moves the window towards the start instead of wrapping to the end. */
    function CanScrollUp(): (r: bool)
      reads this
      ensures r <==> (slotOffset - 1) % U32 < slotOffset
    {
      slotOffset > 0
    }

    /** `canScrollDown`: the offset plus the slot count, in `unsigned int`, is below the vector's size. */
    function CanScrollDown(): (r: bool)
      reads this, items
      ensures slotOffset + slotsNumber < U32 ==>
        (r <==> |Window(items.contents, slotOffset, slotsNumber)| == slotsNumber && slotOffset + slotsNumber < |items.contents|)
    {
      (slotOffset + slotsNumber) % U32 < |items.contents|
    }

    /** `scrollUp`: the offset drops by one (wrapping below zero as an `unsigned int`) and the window is rebuilt. */
    method ScrollUp()
      requires Valid()
      modifies this`slotOffset, this`inventoryItems
      ensures Valid()
      ensures slotOffset == (old(slotOffset) - 1) % U32
      ensures old(CanScrollUp()) ==> slotOffset == old(slotOffset) - 1
      ensures Shown() == Window(items.contents, slotOffset, slotsNumber)
    {
      slotOffset := (slotOffset - 1) % U32;
      Update();
    }

    /** `scrollDown`: the offset grows by one (wrapping as an `unsigned int`) and the window is rebuilt. */
    method ScrollDown()
      requires Valid()
      modifies this`slotOffset, this`inventoryItems
      ensures Valid()
      ensures slotOffset == (old(slotOffset) + 1) % U32
      ensures old(slotOffset) + 1 < U32 ==> slotOffset == old(slotOffset) + 1
      ensures Shown() == Window(items.contents, slotOffset, slotsNumber)
    {
      slotOffset := (slotOffset + 1) % U32;
      Update();
    }

    /** `addItem`: the widget's item goes at the end of the vector (the amount is ignored) and the window is rebuilt. */
    method AddItem(widget: InventoryItem)
      requires Valid() && |items.contents| + 1 < U32
      modifies items, this`inventoryItems
      ensures Valid()
      ensures items.contents == old(items.contents) + [widget.item]
      ensures Shown() == Window(items.contents, slotOffset, slotsNumber)
      ensures forall k :: 0 <= k < |inventoryItems| ==> fresh(inventoryItems[k])
    {
      items.contents := items.contents + [widget.item];
      Update();
    }

    /** `removeItem`: the first occurrence of the widget's item leaves the vector (the amount is ignored) and the window is rebuilt. */
    method RemoveItem(widget: InventoryItem)
      requires Valid()
      modifies items, this`inventoryItems
      ensures Valid()
      ensures items.contents == RemoveFirst(old(items.contents), widget.item)
      ensures Shown() == Window(items.contents, slotOffset, slotsNumber)
      ensures forall k :: 0 <= k < |inventoryItems| ==> fresh(inventoryItems[k])
    {
      var remaining := EraseFirst(items.contents, widget.item);
      items.contents := remaining;
      Update();
    }

    /** The widget under the mouse at `eventPos` when a drag starts, if the index `DragIndex` computes is one of the window's. */
    ghost function DragTarget(eventPos: Point): set<InventoryItem>
      reads this`inventoryItems
      requires slotHeight > 0
    {
      var index := DragIndex(eventPos.y, position.y, slotHeight);
      if index < |inventoryItems| then {inventoryItems[index]} else {}
    }

    /** The dragged widget, if any. */
    ghost function Dragged(): set<InventoryItem>
      reads this`draggedItem
    {
      if draggedItem != null then {draggedItem} else {}
    }

    /**
     * `onMouseDragStart`: the slot under the mouse, by `DragIndex`, becomes
     * the dragged widget (typed DRAG, offset so that it is centred on the
     * mouse); a point past the shown widgets drags nothing.
     */
    method OnMouseDragStart(eventPos: Point, dragBase: Size)
      requires slotHeight > 0
      modifies this`draggedItem, DragTarget(eventPos)`itemType, DragTarget(eventPos)`offset
      ensures var index := DragIndex(eventPos.y, position.y, slotHeight);
        if index < |inventoryItems| then
          var w := inventoryItems[index];
          && draggedItem == w && w.itemType == Drag
          && w.offset == Sub(Sub(eventPos, w.position), Half(dragBase))
        else
          draggedItem == null
    {
      var index := DragIndex(eventPos.y, position.y, slotHeight);
      if index < |inventoryItems| {
        draggedItem := inventoryItems[index];
        draggedItem.itemType := Drag;
        draggedItem.offset := Sub(Sub(eventPos, draggedItem.position), Half(dragBase));
      } else {
        draggedItem := null;
      }
    }

    /** `onMouseDrag`: the dragged widget, if any, follows the mouse. */
    method OnMouseDrag(eventOffset: Point)
      modifies Dragged()`offset
      ensures draggedItem != null ==> draggedItem.offset == Add(old(draggedItem.offset), eventOffset)
    {
      if draggedItem != null {
        draggedItem.offset := Add(draggedItem.offset, eventOffset);
      }
    }

    /** `onMouseDragStop`: the dragged widget, if any, is reset to offset (0, 0) and this list's type, and an "itemdragstop" at the mouse position is emitted. */
    method OnMouseDragStop(eventPos: Point) returns (emitted: Option<Point>)
      modifies Dragged()`offset, Dragged()`itemType
      ensures draggedItem == null ==> emitted == None
      ensures draggedItem != null ==>
        && draggedItem.offset == Point(0, 0) && draggedItem.itemType == itemType
        && emitted == Some(eventPos)
    {
      if draggedItem == null {
        return None;
      }
      draggedItem.offset := Point(0, 0);
      draggedItem.itemType := itemType;
      return Some(eventPos);
    }

    /**
     * `onItemDragStop`: a drop inside this list takes the dragged item. From
     * another list it is appended here and its first occurrence leaves the
     * source's vector; from a slot its item is appended here, the slot is
     * emptied, and an armor slot's armor is taken off the player. A drop
     * outside the list does nothing.
     */
    method OnItemDragStop(eventPos: Point, source: DragSource, player: GameObject)
      requires Valid() && |items.contents| + 1 < U32
      requires source.FromList? ==> source.list.Valid() && source.list.draggedItem != null
      modifies items, this`inventoryItems, player`armorSlot
      modifies (if source.FromList? then {source.list} else {})`inventoryItems
      modifies if source.FromList? then {source.list.items} else {}
      modifies (if source.FromSlot? then {source.slot} else {})`item
      ensures !InRect(eventPos, position, Size(slotWidth, slotHeight * slotsNumber)) ==>
        && items.contents == old(items.contents) && inventoryItems == old(inventoryItems)
        && player.armorSlot == old(player.armorSlot)
        && (source.FromList? ==>
              && source.list.items.contents == old(source.list.items.contents)
              && source.list.inventoryItems == old(source.list.inventoryItems))
        && (source.FromSlot? ==> source.slot.item == old(source.slot.item))
      ensures InRect(eventPos, position, Size(slotWidth, slotHeight * slotsNumber)) && source.FromList? ==>
        var src := source.list;
        var x := old(src.draggedItem.item);
        && (src.items == items ==> items.contents == RemoveFirst(old(items.contents) + [x], x))
        && (src.items == items && src != this ==> Shown() == Window(old(items.contents) + [x], slotOffset, slotsNumber))
        && (src.items != items ==>
              && items.contents == old(items.contents) + [x]
              && src.items.contents == RemoveFirst(old(src.items.contents), x)
              && (src != this ==> Shown() == Window(items.contents, slotOffset, slotsNumber)))
        && src.Shown() == Window(src.items.contents, src.slotOffset, src.slotsNumber)
        && player.armorSlot == old(player.armorSlot)
      ensures InRect(eventPos, position, Size(slotWidth, slotHeight * slotsNumber)) && source.FromSlot? ==>
        var slot := source.slot;
        && items.contents == old(items.contents) + [old(slot.item)]
        && Shown() == Window(items.contents, slotOffset, slotsNumber)
        && slot.item == null
        && player.armorSlot == if old(slot.item) != null && old(slot.item).kind == ItemObject(Armor) && old(slot.itemType) == Slot
             then null else old(player.armorSlot)
    {
      if !InRect(eventPos, position, Size(slotWidth, slotHeight * slotsNumber)) {
        return;
      }
      match source
      case FromList(src) =>
        DropFromList(src);
      case FromSlot(slot) =>
        DropFromSlot(slot, player);
    }

    /** The list branch of `onItemDragStop`: add the source's dragged item here, remove it from the source, rebuild the source. */
    method DropFromList(src: ItemsList)
      requires Valid() && |items.contents| + 1 < U32
      requires src.Valid() && src.draggedItem != null
      modifies items, this`inventoryItems, src`inventoryItems, src.items
      ensures src.items == items ==> items.contents == RemoveFirst(old(items.contents) + [old(src.draggedItem.item)], old(src.draggedItem.item))
      ensures src.items == items && src != this ==>
        Shown() == Window(old(items.contents) + [old(src.draggedItem.item)], slotOffset, slotsNumber)
      ensures src.items != items ==> items.contents == old(items.contents) + [old(src.draggedItem.item)]
      ensures src.items != items ==> src.items.contents == RemoveFirst(old(src.items.contents), old(src.draggedItem.item))
      ensures src.items != items && src != this ==> Shown() == Window(items.contents, slotOffset, slotsNumber)
      ensures src.Shown() == Window(src.items.contents, src.slotOffset, src.slotsNumber)
    {
      if src.items == items {
        DropWithinVector(src);
      } else {
        DropAcrossVectors(src);
      }
    }

    /** `DropFromList` when the source shows the same vector: the item is appended, then its first occurrence removed, from that one vector. */
    method DropWithinVector(src: ItemsList)
      requires Valid() && |items.contents| + 1 < U32
      requires src.Valid() && src.draggedItem != null && src.items == items
      modifies items, this`inventoryItems, src`inventoryItems
      ensures items.contents == RemoveFirst(old(items.contents) + [old(src.draggedItem.item)], old(src.draggedItem.item))
      ensures src != this ==> Shown() == Window(old(items.contents) + [old(src.draggedItem.item)], slotOffset, slotsNumber)
      ensures src.Shown() == Window(src.items.contents, src.slotOffset, src.slotsNumber)
    {
      var dragged := src.draggedItem;
      AddItem(dragged);
      ghost var added := items.contents;
      ghost var shown := Shown();
      src.RemoveDragged(dragged);
      assert src != this ==> Shown() == shown;
      assert items.contents == RemoveFirst(added, dragged.item);
    }

    /** `DropFromList` when the source shows another vector: the item is appended to this one and its first occurrence leaves the source's. */
    method DropAcrossVectors(src: ItemsList)
      requires Valid() && |items.contents| + 1 < U32
      requires src.Valid() && src.draggedItem != null && src.items != items
      modifies items, this`inventoryItems, src`inventoryItems, src.items
      ensures items.contents == old(items.contents) + [old(src.draggedItem.item)]
      ensures src.items.contents == RemoveFirst(old(src.items.contents), old(src.draggedItem.item))
      ensures src != this ==> Shown() == Window(items.contents, slotOffset, slotsNumber)
      ensures src.Shown() == Window(src.items.contents, src.slotOffset, src.slotsNumber)
    {
      var dragged := src.draggedItem;
      AddItem(dragged);
      ghost var shown := Shown();
      src.RemoveDragged(dragged);
      assert Shown() == shown;
    }

    /** The source's side of a list-to-list drop: `removeItem` of the dragged widget, then `update`. */
    method RemoveDragged(dragged: InventoryItem)
      requires Valid()
      modifies items, this`inventoryItems
      ensures items.contents == RemoveFirst(old(items.contents), dragged.item)
      ensures Shown() == Window(items.contents, slotOffset, slotsNumber)
    {
      RemoveItem(dragged);
      Update();
    }

    /** The slot branch of `onItemDragStop`: add the slot's item here, take armor off the player when an armor slot is emptied, empty the slot. */
    method DropFromSlot(slot: InventoryItem, player: GameObject)
      requires Valid() && |items.contents| + 1 < U32
      modifies items, this`inventoryItems, slot`item, player`armorSlot
      ensures items.contents == old(items.contents) + [old(slot.item)]
      ensures Shown() == Window(items.contents, slotOffset, slotsNumber)
      ensures slot.item == null
      ensures player.armorSlot == if old(slot.item) != null && old(slot.item).kind == ItemObject(Armor) && old(slot.itemType) == Slot
        then null else old(player.armorSlot)
    {
      AddItem(slot);
      if slot.item != null && slot.item.kind == ItemObject(Armor) && slot.itemType == Slot {
        player.armorSlot := null;
      }
      slot.item := null;
    }
  }
}
