/** The reminder item and its conversions (internal/reminder/item/model.go). */
module ItemModel {
  import opened Wrappers
  import opened Text
  import opened Rfc3339
  import opened GenUuid

  /** An item as stored; times are instants, `hoursAfterOpening` is Go's `int`. */
  datatype Item = Item(
    id: Uuid, name: string, isOpened: bool, bestBefore: Instant, expirationDate: Instant,
    hoursAfterOpening: int, dateAdded: Instant, note: string)

  /** The zero `Item{}`: every time is Go's zero time, January 1 of year 1. */
  const ZeroItem: Item := Item(ZeroUuid, "", false, ZeroTime, ZeroTime, 0, ZeroTime, "")

  /** The JSON form: RFC 3339 texts, and no hours when they are zero. */
  datatype ResponseItem = ResponseItem(
    id: Uuid, name: string, isOpened: bool, bestBefore: string, expirationDate: string,
    hoursAfterOpening: Option<int>, dateAdded: string, note: string)

  function ToResponseFormat(i: Item): (r: ResponseItem)
    ensures r.hoursAfterOpening.None? <==> i.hoursAfterOpening == 0
    ensures r.hoursAfterOpening.Some? ==> r.hoursAfterOpening.value == i.hoursAfterOpening
    ensures r.bestBefore == Format(i.bestBefore) && r.expirationDate == Format(i.expirationDate)
    ensures r.dateAdded == Format(i.dateAdded)
    ensures r.id == i.id && r.name == i.name && r.isOpened == i.isOpened && r.note == i.note
  {
    var hours := if i.hoursAfterOpening != 0 then Some(i.hoursAfterOpening) else None;
    ResponseItem(i.id, i.name, i.isOpened, Format(i.bestBefore), Format(i.expirationDate),
      hours, Format(i.dateAdded), i.note)
  }

  /** RFC 3339 output has whole seconds: formatting drops the sub-second part. */
  lemma {:induction false} FormatTruncates(t: Instant)
    ensures Format(t) == Format(WholeSecond(t))
  {
    TruncateToSecond(t);
  }

  /** Dropping the sub-second part keeps the second. */
  lemma TruncateToSecond(t: Instant)
    ensures WholeSecond(t) / 1_000_000_000 == t / 1_000_000_000
  {
    var q := t / 1_000_000_000;
    assert t - t % 1_000_000_000 == q * 1_000_000_000;
  }

  /** The three response timestamps read back as the item's instants truncated to their seconds. */
  lemma ResponseTimesRoundTrip(i: Item)
    requires FourDigitYear(i.bestBefore) && FourDigitYear(i.expirationDate) && FourDigitYear(i.dateAdded)
    ensures Parse(ToResponseFormat(i).bestBefore) == Some(WholeSecond(i.bestBefore))
    ensures Parse(ToResponseFormat(i).expirationDate) == Some(WholeSecond(i.expirationDate))
    ensures Parse(ToResponseFormat(i).dateAdded) == Some(WholeSecond(i.dateAdded))
  {
    ParseFormat(i.bestBefore);
    ParseFormat(i.expirationDate);
    ParseFormat(i.dateAdded);
  }

  /** isEqual compares every field except the expiration date and the date added. */
  predicate IsEqual(i: Item, other: Item) {
    i.id == other.id && i.bestBefore == other.bestBefore && i.name == other.name
    && i.isOpened == other.isOpened && i.hoursAfterOpening == other.hoursAfterOpening
    && i.note == other.note
  }

  lemma IsEqualIgnoresDates(i: Item, other: Item)
    ensures IsEqual(i, other) <==> i.(expirationDate := other.expirationDate, dateAdded := other.dateAdded) == other
  {
  }

  /** Go's `int64` wrap-around, used for `time.Duration(h) * time.Hour`. */
  function WrapInt64(x: int): (r: int)
    ensures -0x8000_0000_0000_0000 <= r < 0x8000_0000_0000_0000
    ensures (r - x) % 0x1_0000_0000_0000_0000 == 0
  {
    (x + 0x8000_0000_0000_0000) % 0x1_0000_0000_0000_0000 - 0x8000_0000_0000_0000
  }

  /** timeAfterOpening: `now` plus the item's hours, as a wrapped duration. */
  function TimeAfterOpening(i: Item, now: Instant): (t: Instant)
    ensures -2_562_047 <= i.hoursAfterOpening <= 2_562_047 ==>
      t == now + i.hoursAfterOpening * NanosPerHour
  {
    var d := i.hoursAfterOpening * 3_600_000_000_000;
    assert -2_562_047 <= i.hoursAfterOpening <= 2_562_047 ==>
      -0x8000_0000_0000_0000 <= d < 0x8000_0000_0000_0000;
    now + WrapInt64(d)
  }

  /**
   * updateExpirationDate: the expiration is carried over from the stored item, replaced
   * by the time after opening when the item has just been opened, and by the best-before
   * date whenever the item is closed. Nothing else changes.
   */
  function UpdateExpirationDate(i: Item, oldItem: Item, now: Instant): (r: Item)
    ensures !i.isOpened ==> r.expirationDate == i.bestBefore
    ensures i.isOpened && !oldItem.isOpened ==> r.expirationDate == TimeAfterOpening(i, now)
    ensures i.isOpened && oldItem.isOpened ==> r.expirationDate == oldItem.expirationDate
    ensures r == i.(expirationDate := r.expirationDate)
    ensures IsEqual(r, i)
  {
    var e0 := oldItem.expirationDate;
    var e1 := if i.isOpened && !oldItem.isOpened then TimeAfterOpening(i, now) else e0;
    var e2 := if !i.isOpened then i.bestBefore else e1;
    i.(expirationDate := e2)
  }

  /** The all-pointers Entity: `None` is a nil field. */
  datatype Entity = Entity(
    id: Option<Uuid>, name: Option<string>, isOpened: Option<bool>, bestBefore: Option<Instant>,
    expirationDate: Option<Instant>, hoursAfterOpening: Option<int>, dateAdded: Option<Instant>,
    note: Option<string>)

  function NewFromItem(i: Item): (e: Entity)
    ensures e.id == Some(i.id) && e.name == Some(i.name) && e.isOpened == Some(i.isOpened)
    ensures e.bestBefore == Some(i.bestBefore) && e.expirationDate == Some(i.expirationDate)
    ensures e.hoursAfterOpening == Some(i.hoursAfterOpening) && e.dateAdded == Some(i.dateAdded)
    ensures e.note == Some(i.note)
  {
    Entity(Some(i.id), Some(i.name), Some(i.isOpened), Some(i.bestBefore), Some(i.expirationDate),
      Some(i.hoursAfterOpening), Some(i.dateAdded), Some(i.note))
  }

  /** Entity.item: every nil field becomes the zero value, every other field is copied. */
  function EntityItem(e: Entity): (r: Item)
    ensures e.id.Some? ==> r.id == e.id.value
    ensures e.id.None? ==> r.id == ZeroItem.id
    ensures e.name.Some? ==> r.name == e.name.value
    ensures e.name.None? ==> r.name == ZeroItem.name
    ensures e.isOpened.Some? ==> r.isOpened == e.isOpened.value
    ensures e.isOpened.None? ==> r.isOpened == ZeroItem.isOpened
    ensures e.bestBefore.Some? ==> r.bestBefore == e.bestBefore.value
    ensures e.bestBefore.None? ==> r.bestBefore == ZeroItem.bestBefore
    ensures e.expirationDate.Some? ==> r.expirationDate == e.expirationDate.value
    ensures e.expirationDate.None? ==> r.expirationDate == ZeroItem.expirationDate
    ensures e.hoursAfterOpening.Some? ==> r.hoursAfterOpening == e.hoursAfterOpening.value
    ensures e.hoursAfterOpening.None? ==> r.hoursAfterOpening == ZeroItem.hoursAfterOpening
    ensures e.dateAdded.Some? ==> r.dateAdded == e.dateAdded.value
    ensures e.dateAdded.None? ==> r.dateAdded == ZeroItem.dateAdded
    ensures e.note.Some? ==> r.note == e.note.value
    ensures e.note.None? ==> r.note == ZeroItem.note
  {
    Item(e.id.GetOr(ZeroItem.id), e.name.GetOr(ZeroItem.name), e.isOpened.GetOr(ZeroItem.isOpened),
      e.bestBefore.GetOr(ZeroItem.bestBefore), e.expirationDate.GetOr(ZeroItem.expirationDate),
      e.hoursAfterOpening.GetOr(ZeroItem.hoursAfterOpening), e.dateAdded.GetOr(ZeroItem.dateAdded),
      e.note.GetOr(ZeroItem.note))
  }

  lemma EntityRoundTrip(i: Item)
    ensures EntityItem(NewFromItem(i)) == i
  {
  }

  /** An entity with every field set is the entity of its item. */
  lemma ItemRoundTrip(e: Entity)
    requires e.id.Some? && e.name.Some? && e.isOpened.Some? && e.bestBefore.Some?
    requires e.expirationDate.Some? && e.hoursAfterOpening.Some? && e.dateAdded.Some? && e.note.Some?
    ensures NewFromItem(EntityItem(e)) == e
  {
  }

  /** Items.ToResponseFormat: the response list, in the same order. */
  method ItemsToResponseFormat(items: seq<Item>) returns (response: seq<ResponseItem>)
    ensures |response| == |items|
    ensures forall k :: 0 <= k < |items| ==> response[k] == ToResponseFormat(items[k])
  {
    response := [];
    var n := 0;
    while n < |items|
      invariant n <= |items| && |response| == n
      invariant forall k :: 0 <= k < n ==> response[k] == ToResponseFormat(items[k])
    {
      var r := ToResponseFormat(items[n]);
      AppendPointwise(items, response, n, r, ToResponseFormat);
      response := response + [r];
      n := n + 1;
    }
  }

  /** One more converted element keeps the converted prefix converted. */
  lemma AppendPointwise<A, B>(items: seq<A>, response: seq<B>, n: nat, r: B, f: A -> B)
    requires n < |items| && |response| == n && r == f(items[n])
    requires forall k :: 0 <= k < n ==> response[k] == f(items[k])
    ensures forall k :: 0 <= k < n + 1 ==> (response + [r])[k] == f(items[k])
  {
  }
}
