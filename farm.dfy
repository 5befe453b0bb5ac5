/**
 * The farm screen: a wallet of coins, a bounded progress counter, the ledger
 * of items placed on the canvas, the shop that spawns new items and the
 * single drag session that moves them.
 *
 * Coordinates and sizes are JavaScript numbers and are modelled as `real`;
 * coins, prices and progress are whole numbers and are modelled as `int`.
 */
module Farm {
  import opened Wrappers

  /** A catalogue entry of the shop. */
  datatype ShopItem = ShopItem(id: string, name: string, price: int, width: real, height: real)

  /** An item on the canvas: a copy of its catalogue entry with a unique id, a position and the catalogue id. */
  datatype PlacedItem = PlacedItem(
    id: string, name: string, price: int, width: real, height: real,
    left: real, top: real, originalId: string)

  /** A pointer sample or a drag offset, in viewport pixels. */
  datatype Point = Point(x: real, y: real)

  /** A bounding client rectangle. */
  datatype Rect = Rect(left: real, top: real, width: real, height: real)

  /** The value of one call to `Math.random()`. */
  type Draw = u: real | 0.0 <= u < 1.0

  /** The picture shown for a placed item. */
  datatype Picture = WellPicture | CarrotPicture | LogsPicture | FencePicture | NoPicture

  const InitialCoins: int := 100
  const InitialProgress: int := 30
  const MaxProgress: int := 100
  const ProgressStep: int := 5
  const ReadyReward: int := 10

  /** The size assumed when the canvas element is not mounted. */
  const FallbackArea: Rect := Rect(0.0, 0.0, 800.0, 600.0)

  /**
   * The shop's catalogue, in display order: four items with distinct,
   * dash-free ids and positive prices, each narrow enough that twice its
   * width fits the fallback canvas.
   */
  function ShopItems(): (items: seq<ShopItem>)
    ensures |items| == 4
    ensures forall k :: 0 <= k < |items| ==>
              && items[k].id != "" && '-' !in items[k].id && items[k].price > 0
              && 2.0 * items[k].width < FallbackArea.width
    ensures forall j, k :: 0 <= j < k < |items| ==> items[j].id != items[k].id
  {
    [ ShopItem("well", "Wishing Well", 20, 180.0, 180.0),
      ShopItem("carrot", "Carrot", 10, 140.0, 140.0),
      ShopItem("logs", "Log Pile", 15, 180.0, 130.0),
      ShopItem("fence", "Fence", 25, 180.0, 90.0) ]
  }

  function Min(a: real, b: real): real { if a <= b then a else b }
  function Max(a: real, b: real): real { if a <= b then b else a }

  // ---------------------------------------------------------------------------
  // Item ids and pictures
  // ---------------------------------------------------------------------------

  /** The decimal digit `d`. */
  function DigitChar(d: nat): (c: char)
    requires d < 10
    ensures '0' <= c <= '9'
  {
    ('0' as int + d) as char
  }

  /** The decimal text of `n`, as template literals print a millisecond clock reading. */
  function Decimal(n: nat): (s: string)
    ensures |s| > 0
    ensures s[0] == '0' ==> n == 0
    ensures forall i :: 0 <= i < |s| ==> '0' <= s[i] <= '9'
    decreases n
  {
    if n < 10 then [DigitChar(n)] else Decimal(n / 10) + [DigitChar(n % 10)]
  }

  /** The number a non-empty run of decimal digits denotes. */
  function DigitsValue(s: string): (n: nat)
    requires forall i :: 0 <= i < |s| ==> '0' <= s[i] <= '9'
    decreases |s|
  {
    if s == [] then 0
    else DigitsValue(s[..|s| - 1]) * 10 + (s[|s| - 1] as int - '0' as int)
  }

  /** The decimal text of a clock reading denotes that reading. */
  lemma {:induction false} DecimalRoundTrip(n: nat)
    ensures DigitsValue(Decimal(n)) == n
    decreases n
  {
    if n >= 10 {
      var s := Decimal(n);
      assert s[..|s| - 1] == Decimal(n / 10);
      DecimalRoundTrip(n / 10);
    }
  }

  /** Distinct clock readings print as distinct texts. */
  lemma DecimalInjective(a: nat, b: nat)
    ensures Decimal(a) == Decimal(b) ==> a == b
  {
    DecimalRoundTrip(a);
    DecimalRoundTrip(b);
  }

  /** The id of an item bought at clock reading `now`: the catalogue id, a dash, the reading. */
  function SpawnId(templateId: string, now: nat): (id: string)
    ensures |id| == |templateId| + 1 + |Decimal(now)|
    ensures id[..|templateId|] == templateId && id[|templateId|] == '-'
    ensures id[|templateId| + 1..] == Decimal(now)
  {
    templateId + "-" + Decimal(now)
  }

  /**
   * Items bought from dash-free catalogue ids get the same id only when
   * they come from the same catalogue entry in the same millisecond.
   */
  lemma SpawnIdsDiffer(t1: string, a: nat, t2: string, b: nat)
    requires '-' !in t1 && '-' !in t2
    ensures SpawnId(t1, a) == SpawnId(t2, b) ==> t1 == t2 && a == b
  {
    if SpawnId(t1, a) == SpawnId(t2, b) {
      BaseIdOfSpawnId(t1, a);
      BaseIdOfSpawnId(t2, b);
      DecimalInjective(a, b);
    }
  }

  /** The text before the first dash of `itemId` (the whole text when it has none). */
  function BaseId(itemId: string): (r: string)
    ensures |r| <= |itemId| && r == itemId[..|r|]
    ensures '-' !in r
    ensures |r| < |itemId| ==> itemId[|r|] == '-'
  {
    if itemId == [] || itemId[0] == '-' then [] else [itemId[0]] + BaseId(itemId[1..])
  }

  /** The picture looked up from the part of an id before its first dash; unknown ids have none. */
  function ItemPicture(itemId: string): (p: Picture)
    ensures p == WellPicture <==> BaseId(itemId) == "well"
    ensures p == CarrotPicture <==> BaseId(itemId) == "carrot"
    ensures p == LogsPicture <==> BaseId(itemId) == "logs"
    ensures p == FencePicture <==> BaseId(itemId) == "fence"
    ensures p != NoPicture <==> BaseId(itemId) in ["well", "carrot", "logs", "fence"]
  {
    var base := BaseId(itemId);
    if base == "well" then WellPicture
    else if base == "carrot" then CarrotPicture
    else if base == "logs" then LogsPicture
    else if base == "fence" then FencePicture
    else NoPicture
  }

  /** A dash-free text followed by nothing or by a dash is the base id of the whole. */
  lemma {:induction false} BaseIdOfDashFreePrefix(head: string, tail: string)
    requires '-' !in head
    requires tail == [] || tail[0] == '-'
    ensures BaseId(head + tail) == head
  {
    if head != [] {
      assert (head + tail)[0] == head[0];
      assert (head + tail)[1..] == head[1..] + tail;
      BaseIdOfDashFreePrefix(head[1..], tail);
    }
  }

  /** The text before the first dash of a spawned id is the catalogue id it was made from. */
  lemma BaseIdOfSpawnId(templateId: string, now: nat)
    ensures '-' !in templateId ==> BaseId(SpawnId(templateId, now)) == templateId
  {
    if '-' !in templateId {
      assert SpawnId(templateId, now) == templateId + ("-" + Decimal(now));
      BaseIdOfDashFreePrefix(templateId, "-" + Decimal(now));
    }
  }

  /** Every catalogue item has a picture, and an item bought from it keeps that picture. */
  lemma SpawnedItemKeepsPicture(k: nat, now: nat)
    requires k < |ShopItems()|
    ensures ItemPicture(ShopItems()[k].id) != NoPicture
    ensures ItemPicture(SpawnId(ShopItems()[k].id, now)) == ItemPicture(ShopItems()[k].id)
  {
    var t := ShopItems()[k];
    assert '-' !in t.id by {
      assert t.id in ["well", "carrot", "logs", "fence"];
    }
    BaseIdOfSpawnId(t.id, now);
    assert t.id + [] == t.id;
    BaseIdOfDashFreePrefix(t.id, []);
  }

  /** The picture drawn for a placed item: looked up by its catalogue id, or by its own id when that is empty. */
  function PlacedPicture(item: PlacedItem): (p: Picture)
    ensures item.originalId != "" ==> p == ItemPicture(item.originalId)
    ensures item.originalId == "" ==> p == ItemPicture(item.id)
  {
    ItemPicture(if item.originalId != "" then item.originalId else item.id)
  }

  // ---------------------------------------------------------------------------
  // Arithmetic of positions
  // ---------------------------------------------------------------------------

  /** `Math.max(0, Math.min(hi, v))`: the bound applied to each axis during a drag. */
  function Clamp(v: real, hi: real): (r: real)
    ensures 0.0 <= r
    ensures 0.0 <= hi ==> r <= hi
    ensures 0.0 <= v <= hi ==> r == v
    ensures 0.0 <= hi < v ==> r == hi
    ensures v < 0.0 ==> r == 0.0
    ensures hi < 0.0 ==> r == 0.0
    ensures r == v || r == hi || r == 0.0
  {
    Max(0.0, Min(hi, v))
  }

  /** The grab offset recorded on mouse-down: the pointer relative to the item's top-left corner. */
  function GrabOffset(pointer: Point, itemRect: Rect): (off: Point)
    ensures itemRect.left + off.x == pointer.x && itemRect.top + off.y == pointer.y
  {
    Point(pointer.x - itemRect.left, pointer.y - itemRect.top)
  }

  /** The item moved to follow `pointer`, held by `offset`, each axis clamped to the canvas `area`. */
  function DragTo(item: PlacedItem, pointer: Point, area: Rect, offset: Point): (r: PlacedItem)
    ensures r == item.(left := r.left, top := r.top)
    ensures 0.0 <= r.left && 0.0 <= r.top
    ensures item.width <= area.width ==> r.left + item.width <= area.width
    ensures item.height <= area.height ==> r.top + item.height <= area.height
    ensures var target := pointer.x - area.left - offset.x;
            0.0 <= target <= area.width - item.width ==> r.left == target
    ensures var target := pointer.y - area.top - offset.y;
            0.0 <= target <= area.height - item.height ==> r.top == target
    ensures var target := pointer.x - area.left - offset.x;
            item.width <= area.width < target + item.width ==> r.left == area.width - item.width
    ensures var target := pointer.y - area.top - offset.y;
            item.height <= area.height < target + item.height ==> r.top == area.height - item.height
    ensures pointer.x - area.left - offset.x < 0.0 ==> r.left == 0.0
    ensures pointer.y - area.top - offset.y < 0.0 ==> r.top == 0.0
  {
    var newLeft := pointer.x - area.left - offset.x;
    var newTop := pointer.y - area.top - offset.y;
    item.(left := Clamp(newLeft, area.width - item.width),
          top := Clamp(newTop, area.height - item.height))
  }

  /**
   * Grabbing an item that lies inside the canvas and moving the pointer
   * nowhere leaves the item where it was.
   */
  lemma GrabAndHoldKeepsPosition(item: PlacedItem, pointer: Point, area: Rect, itemRect: Rect)
    requires itemRect.left == area.left + item.left && itemRect.top == area.top + item.top
    requires 0.0 <= item.left <= area.width - item.width
    requires 0.0 <= item.top <= area.height - item.height
    ensures DragTo(item, pointer, area, GrabOffset(pointer, itemRect)) == item
  {
  }

  /** A canvas narrower than the item pins it at the left edge, overflowing the right one. */
  lemma NarrowCanvasPinsItem(item: PlacedItem, pointer: Point, area: Rect, offset: Point)
    requires area.width < item.width
    ensures DragTo(item, pointer, area, offset).left == 0.0
    ensures DragTo(item, pointer, area, offset).left + item.width > area.width
  {
  }

  /** `Math.floor(Math.random() * (width - itemWidth * 2)) + itemWidth`. */
  function SpawnLeft(u: Draw, areaWidth: real, itemWidth: real): (left: real)
    ensures areaWidth > 2.0 * itemWidth ==> itemWidth <= left < areaWidth - itemWidth
  {
    var span := areaWidth - itemWidth * 2.0;
    ScaledDrawBounds(u, span);
    (u * span).Floor as real + itemWidth
  }

  /** `Math.floor(Math.random() * (height / 2)) + height / 3`. */
  function SpawnTop(u: Draw, areaHeight: real): (top: real)
    ensures areaHeight > 0.0 ==> areaHeight / 3.0 <= top < areaHeight / 3.0 + areaHeight / 2.0
  {
    var span := areaHeight / 2.0;
    ScaledDrawBounds(u, span);
    (u * span).Floor as real + areaHeight / 3.0
  }

  /** A draw scaled by a positive span and floored lies in `[0, span)`. */
  lemma ScaledDrawBounds(u: Draw, span: real)
    ensures span > 0.0 ==> 0 <= (u * span).Floor && ((u * span).Floor as real) < span
  {
    if span > 0.0 {
      assert 0.0 <= u * span;
      assert u * span < span by {
        assert (1.0 - u) * span > 0.0;
      }
    }
  }

  /** The canvas size used by a purchase: the mounted canvas, or 800 by 600. */
  function AreaOrFallback(area: Option<Rect>): Rect
  {
    if area.Some? then area.value else FallbackArea
  }

  /** The item a purchase of `item` places, with clock reading `now` and draws `u`, `v`. */
  function Spawn(item: ShopItem, area: Option<Rect>, now: nat, u: Draw, v: Draw): (r: PlacedItem)
    ensures r.name == item.name && r.price == item.price
    ensures r.width == item.width && r.height == item.height
    ensures r.originalId == item.id
    ensures r.id == SpawnId(item.id, now)
    ensures '-' !in item.id ==> BaseId(r.id) == item.id
    ensures var a := AreaOrFallback(area);
            a.width > 2.0 * item.width ==> item.width <= r.left < a.width - item.width
    ensures var a := AreaOrFallback(area);
            a.height > 0.0 ==> a.height / 3.0 <= r.top < a.height / 3.0 + a.height / 2.0
  {
    var a := AreaOrFallback(area);
    BaseIdOfSpawnId(item.id, now);
    PlacedItem(SpawnId(item.id, now), item.name, item.price, item.width, item.height,
               SpawnLeft(u, a.width, item.width), SpawnTop(v, a.height), item.id)
  }

  /** An item bought from the shop is drawn with its catalogue entry's picture, which exists. */
  lemma BoughtItemShowsCataloguePicture(k: nat, area: Option<Rect>, now: nat, u: Draw, v: Draw)
    requires k < |ShopItems()|
    ensures PlacedPicture(Spawn(ShopItems()[k], area, now, u, v)) == ItemPicture(ShopItems()[k].id)
    ensures ItemPicture(ShopItems()[k].id) != NoPicture
  {
    SpawnedItemKeepsPicture(k, now);
  }

  /**
   * The spawn band reaches five sixths of the canvas height, so a tall item
   * can be spawned partly below the canvas: the wishing well on the
   * fallback canvas with a vertical draw of 0.99.
   */
  lemma SpawnMayCrossBottomEdge(now: nat)
    ensures var r := Spawn(ShopItems()[0], None, now, 0.5, 0.99);
            r.top + r.height > FallbackArea.height
  {
    assert 0.99 * (600.0 / 2.0) == 297.0;
  }

  /** `Math.min(100, progress + 5)`. */
  function BumpProgress(progress: int): (r: int)
    ensures r <= MaxProgress
    ensures progress + ProgressStep <= MaxProgress ==> r == progress + ProgressStep
    ensures progress + ProgressStep > MaxProgress ==> r == MaxProgress
  {
    if progress + ProgressStep <= MaxProgress then progress + ProgressStep else MaxProgress
  }

  /** Repeated bumps from a valid progress stay valid and never go down. */
  lemma BumpProgressStaysInRange(progress: int)
    requires 0 <= progress <= MaxProgress
    ensures progress <= BumpProgress(progress) <= MaxProgress
    ensures progress < MaxProgress ==> progress < BumpProgress(progress)
  {
  }

  // ---------------------------------------------------------------------------
  // The screen's state and handlers
  // ---------------------------------------------------------------------------

  class Game {
    var coins: int
    var progress: int
    var placedItems: seq<PlacedItem>
    var draggingIndex: Option<nat>
    var dragOffset: Point
    var showShop: bool
    var showMissions: bool
    var showExercises: bool

    /** The wallet is never negative, progress stays in [0, 100], a drag refers to a placed item. */
    ghost predicate Valid()
      reads this
    {
      && 0 <= coins
      && 0 <= progress <= MaxProgress
      && (draggingIndex.Some? ==> draggingIndex.value < |placedItems|)
    }

    constructor ()
      ensures Valid()
      ensures coins == InitialCoins && progress == InitialProgress
      ensures placedItems == [] && draggingIndex == None && dragOffset == Point(0.0, 0.0)
      ensures !showShop && !showMissions && !showExercises
    {
      coins, progress := InitialCoins, InitialProgress;
      placedItems, draggingIndex, dragOffset := [], None, Point(0.0, 0.0);
      showShop, showMissions, showExercises := false, false, false;
    }

    /** Whether the buy button of `item` is enabled. */
    function CanAfford(item: ShopItem): bool
      reads this
    {
      coins >= item.price
    }

    /**
     * Buys `item`: when the wallet covers the price, debits it, appends the
     * spawned item, bumps progress and closes the shop; otherwise nothing
     * changes. `area` is the canvas rectangle when the canvas is mounted,
     * `now` the clock reading and `u`, `v` the two random draws.
     */
    method BuyItem(item: ShopItem, area: Option<Rect>, now: nat, u: Draw, v: Draw)
      requires Valid()
      modifies this
      ensures Valid()
      ensures !old(CanAfford(item)) ==>
        && coins == old(coins) && progress == old(progress)
        && placedItems == old(placedItems) && showShop == old(showShop)
      ensures old(CanAfford(item)) ==>
        && coins == old(coins) - item.price
        && placedItems == old(placedItems) + [Spawn(item, area, now, u, v)]
        && progress == BumpProgress(old(progress))
        && !showShop
      ensures draggingIndex == old(draggingIndex) && dragOffset == old(dragOffset)
      ensures showMissions == old(showMissions) && showExercises == old(showExercises)
    {
      if coins >= item.price {
        coins := coins - item.price;
        var newItem := Spawn(item, area, now, u, v);
        placedItems := placedItems + [newItem];
        progress := BumpProgress(progress);
        showShop := false;
      }
    }

    /** A press (mouse or first touch point) on the item at `index`, whose bounding box is `itemRect`. */
    method MouseDown(index: nat, pointer: Point, itemRect: Rect)
      requires Valid()
      requires index < |placedItems|
      modifies this
      ensures Valid()
      ensures draggingIndex == Some(index)
      ensures dragOffset == GrabOffset(pointer, itemRect)
      ensures dragOffset.x == pointer.x - itemRect.left && dragOffset.y == pointer.y - itemRect.top
      ensures coins == old(coins) && progress == old(progress) && placedItems == old(placedItems)
      ensures showShop == old(showShop) && showMissions == old(showMissions)
      ensures showExercises == old(showExercises)
    {
      dragOffset := GrabOffset(pointer, itemRect);
      draggingIndex := Some(index);
    }

    /**
     * A pointer move: with no drag in progress, or no canvas mounted, nothing
     * changes; otherwise only the dragged item moves, clamped to the canvas.
     */
    method MouseMove(pointer: Point, area: Option<Rect>)
      requires Valid()
      modifies this
      ensures Valid()
      ensures old(draggingIndex).None? || area.None? ==> placedItems == old(placedItems)
      ensures old(draggingIndex).Some? && area.Some? ==>
        var i := old(draggingIndex).value;
        && |placedItems| == |old(placedItems)|
        && placedItems[i] == DragTo(old(placedItems)[i], pointer, area.value, dragOffset)
        && (forall j :: 0 <= j < |placedItems| && j != i ==> placedItems[j] == old(placedItems)[j])
      ensures draggingIndex == old(draggingIndex) && dragOffset == old(dragOffset)
      ensures coins == old(coins) && progress == old(progress)
      ensures showShop == old(showShop) && showMissions == old(showMissions)
      ensures showExercises == old(showExercises)
    {
      if draggingIndex == None {
        return;
      }
      if area == None {
        return;
      }
      var i := draggingIndex.value;
      var item := placedItems[i];
      var updatedItems := placedItems;
      updatedItems := updatedItems[i := DragTo(item, pointer, area.value, dragOffset)];
      placedItems := updatedItems;
    }

    /** A release ends the drag session; releasing with none is harmless. */
    method MouseUp()
      requires Valid()
      modifies this
      ensures Valid()
      ensures draggingIndex == None
      ensures dragOffset == old(dragOffset) && placedItems == old(placedItems)
      ensures coins == old(coins) && progress == old(progress)
      ensures showShop == old(showShop) && showMissions == old(showMissions)
      ensures showExercises == old(showExercises)
    {
      draggingIndex := None;
    }

    /** The mission popup's ready button: ten coins, a progress bump, the exercises list. */
    method ReadyClick()
      requires Valid()
      modifies this
      ensures Valid()
      ensures coins == old(coins) + ReadyReward
      ensures progress == BumpProgress(old(progress))
      ensures !showMissions && showExercises
      ensures placedItems == old(placedItems) && draggingIndex == old(draggingIndex)
      ensures dragOffset == old(dragOffset) && showShop == old(showShop)
    {
      showMissions := false;
      coins := coins + ReadyReward;
      progress := BumpProgress(progress);
      showExercises := true;
    }
  }
}
