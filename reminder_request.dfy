/**
 * Request input checks of the reminder API (internal/reminder/api/request): item and copy
 * bodies, body UUIDs, the item list's query filters and the storage deletion option.
 */
module ReminderRequest {
  import opened Wrappers
  import opened Errors
  import opened Text
  import opened Rfc3339
  import opened GenUuid
  import opened ItemModel
  import opened ItemFilter
  import ItemService

  /** The example layout quoted by the invalid-time-format error. */
  const FormatExample: string := "2023-07-11T15:04:05Z"

  /** InvalidTimeFormatError: ErrInvalidTimeFormat wrapped with the rejected text and the example, each `%q`-quoted. */
  function InvalidTimeFormatError(inputtedTime: string): (e: Error)
    ensures Is(e, InvalidTimeFormat)
    ensures forall k :: Is(e, k) ==> k == InvalidTimeFormat
  {
    Wrapped("got " + Quote(inputtedTime) + ", expected in ISO 8601 format " + QuotedExample, E(InvalidTimeFormat))
  }

  /** `%q` of the example layout, which needs no escape (`QuotedFormatExample`). */
  const QuotedExample: string := "\"" + FormatExample + "\""

  /** The example layout needs no escape: it appears in the message verbatim between quotes. */
  lemma QuotedFormatExample()
    ensures Quote(FormatExample) == QuotedExample
  {
    assert forall i :: 0 <= i < |FormatExample| ==> FormatExample[i] != '"' && FormatExample[i] != '\\';
    EscapedPlain(FormatExample);
  }

  /** The JSON body of an item. */
  datatype ItemData = ItemData(
    name: string, dateAdded: string, bestBefore: string, isOpened: bool,
    hoursAfterOpening: int, note: string, storageId: Uuid)

  datatype CopyData = CopyData(originalId: Uuid, dateAdded: string)

  /**
   * toValidItem: a missing name or best-before date is a missing field; an unreadable
   * best-before date is a time-format error; otherwise the item carries the body's fields
   * and a zero id, expiration and date added.
   */
  function ToValidItem(d: ItemData): (r: Result<Item>)
    ensures (d.name == "" || d.bestBefore == "") ==> r == Fail(E(MissingRequiredField))
    ensures d.name != "" && d.bestBefore != "" && Parse(d.bestBefore).None? ==>
      r == Fail(InvalidTimeFormatError(d.bestBefore))
    ensures r.Ok? <==> d.name != "" && d.bestBefore != "" && Parse(d.bestBefore).Some?
    ensures r.Ok? ==>
      && r.value.name == d.name && r.value.bestBefore == Parse(d.bestBefore).value
      && r.value.isOpened == d.isOpened && r.value.hoursAfterOpening == d.hoursAfterOpening
      && r.value.note == d.note
      && r.value.id == ZeroUuid && r.value.dateAdded == ZeroTime && r.value.expirationDate == ZeroTime
  {
    if d.name == "" || d.bestBefore == "" then Fail(E(MissingRequiredField))
    else match Parse(d.bestBefore)
      case None => Fail(InvalidTimeFormatError(d.bestBefore))
      case Some(bestBefore) =>
        Ok(ZeroItem.(name := d.name, bestBefore := bestBefore, isOpened := d.isOpened,
          hoursAfterOpening := d.hoursAfterOpening, note := d.note))
  }

  /** toValidItemWithAddedDateRequired: the date added is checked first, and read last. */
  function ToValidItemWithAddedDateRequired(d: ItemData): (r: Result<Item>)
    ensures d.dateAdded == "" ==> r == Fail(E(MissingRequiredField))
    ensures d.dateAdded != "" && ToValidItem(d).Fail? ==> r == ToValidItem(d)
    ensures d.dateAdded != "" && ToValidItem(d).Ok? && Parse(d.dateAdded).None? ==>
      r == Fail(InvalidTimeFormatError(d.dateAdded))
    ensures r.Ok? ==>
      ToValidItem(d).Ok? && Parse(d.dateAdded).Some?
      && r.value == ToValidItem(d).value.(dateAdded := Parse(d.dateAdded).value)
  {
    if d.dateAdded == "" then Fail(E(MissingRequiredField))
    else match ToValidItem(d)
      case Fail(err) => Fail(err)
      case Ok(parsed) =>
        match Parse(d.dateAdded)
        case None => Fail(InvalidTimeFormatError(d.dateAdded))
        case Some(dateAdded) => Ok(parsed.(dateAdded := dateAdded))
  }

  /** checkIsUUIDValid: the zero UUID is missing, an invalid one is rejected. */
  function CheckIsUuidValid(u: Uuid): (r: Option<Error>)
    ensures u == ZeroUuid ==> r == Some(E(MissingRequiredField))
    ensures u != ZeroUuid && !u.valid ==> r == Some(E(InvalidUuidInBody))
    ensures r.None? <==> u != ZeroUuid && u.valid
  {
    if u == ZeroUuid then Some(E(MissingRequiredField))
    else if !u.valid then Some(E(InvalidUuidInBody))
    else None
  }

  /** toValidCopyData: the date added is checked for presence before the original id. */
  function ToValidCopyData(d: CopyData): (r: Result<ItemService.ToCopy>)
    ensures d.dateAdded == "" ==> r == Fail(E(MissingRequiredField))
    ensures d.dateAdded != "" && CheckIsUuidValid(d.originalId).Some? ==> r == Fail(CheckIsUuidValid(d.originalId).value)
    ensures d.dateAdded != "" && CheckIsUuidValid(d.originalId).None? && Parse(d.dateAdded).None? ==>
      r == Fail(InvalidTimeFormatError(d.dateAdded))
    ensures r.Ok? ==>
      Parse(d.dateAdded).Some?
      && r.value == ItemService.ToCopy(d.originalId, ZeroUuid, Parse(d.dateAdded).value)
  {
    if d.dateAdded == "" then Fail(E(MissingRequiredField))
    else match CheckIsUuidValid(d.originalId)
      case Some(err) => Fail(err)
      case None =>
        match Parse(d.dateAdded)
        case None => Fail(InvalidTimeFormatError(d.dateAdded))
        case Some(dateAdded) => Ok(ItemService.ToCopy(d.originalId, ZeroUuid, dateAdded))
  }

  /** A best-before date the API itself formatted is accepted back as input. */
  lemma FormattedBestBeforeIsValid(d: ItemData, t: Instant)
    requires d.name != "" && d.bestBefore == Format(t)
    requires FourDigitYear(t)
    ensures ToValidItem(d).Ok? && ToValidItem(d).value.bestBefore == WholeSecond(t)
  {
    ParseFormat(t);
  }

  /** Query parameters: every value given for a key, in order. */
  type Query = map<string, seq<string>>

  /** `url.Values.Get`: the first value, or "" when there is none. */
  function Get(q: Query, key: string): (v: string)
    ensures key !in q || q[key] == [] ==> v == ""
    ensures key in q && q[key] != [] ==> v == q[key][0]
  {
    if key in q && q[key] != [] then q[key][0] else ""
  }

  const StorageIdQueryKey: string := "storage-id"
  const IsOpenedQueryKey: string := "is-opened"
  const BeforeDateQueryKey: string := "before-date"
  const NameStartingQueryKey: string := "name-starting"
  const OptionQueryKey: string := "option"

  /** uuidformat.StrToPgtype, over `uuid.Parse` given as `parse`. */
  function StrToPgtype(raw: string, parse: string -> Result<seq<Byte>>): (r: Result<Uuid>)
    ensures r.Ok? <==> parse(raw).Ok?
    ensures r.Ok? ==> r.value == Uuid(parse(raw).value, true)
    ensures r.Fail? ==> Is(r.err, InvalidUuid)
  {
    match parse(raw)
    case Ok(bytes) => Ok(Uuid(bytes, true))
    case Fail(err) => Fail(JoinWith(InvalidUuid, err))
  }

  /** strToBool: exactly "true" and "false" are booleans. */
  function StrToBool(input: string): (r: Result<bool>)
    ensures r.Ok? <==> input == "true" || input == "false"
    ensures r.Ok? ==> r.value == (input == "true")
    ensures r.Fail? ==> r.err == E(InvalidQuery)
  {
    if input == "true" then Ok(true)
    else if input == "false" then Ok(false)
    else Fail(E(InvalidQuery))
  }

  /** checkByStorageFilter */
  function CheckByStorageFilter(q: Query, filters: seq<Filter>, parse: string -> Result<seq<Byte>>): (r: Result<seq<Filter>>)
    ensures Get(q, StorageIdQueryKey) == "" ==> r == Ok(filters)
    ensures Get(q, StorageIdQueryKey) != "" && StrToPgtype(Get(q, StorageIdQueryKey), parse).Fail? ==>
      r == Fail(E(InvalidQuery))
    ensures Get(q, StorageIdQueryKey) != "" && StrToPgtype(Get(q, StorageIdQueryKey), parse).Ok? ==>
      r == Ok(filters + [ByStorageId(StrToPgtype(Get(q, StorageIdQueryKey), parse).value)])
  {
    var storageId := Get(q, StorageIdQueryKey);
    if storageId == "" then Ok(filters)
    else match StrToPgtype(storageId, parse)
      case Fail(_) => Fail(E(InvalidQuery))
      case Ok(id) => Ok(filters + [ByStorageId(id)])
  }

  /** checkByOpenedFilter */
  function CheckByOpenedFilter(q: Query, filters: seq<Filter>): (r: Result<seq<Filter>>)
    ensures Get(q, IsOpenedQueryKey) == "" ==> r == Ok(filters)
    ensures Get(q, IsOpenedQueryKey) != "" && StrToBool(Get(q, IsOpenedQueryKey)).Fail? ==> r == Fail(E(InvalidQuery))
    ensures Get(q, IsOpenedQueryKey) != "" && StrToBool(Get(q, IsOpenedQueryKey)).Ok? ==>
      r == Ok(filters + [ByOpenedStatus(Get(q, IsOpenedQueryKey) == "true")])
  {
    var openedStatus := Get(q, IsOpenedQueryKey);
    if openedStatus == "" then Ok(filters)
    else match StrToBool(openedStatus)
      case Fail(err) => Fail(err)
      case Ok(isOpened) => Ok(filters + [ByOpenedStatus(isOpened)])
  }

  /** checkByDateFilter: an unreadable date is both an invalid query and a time-format error. */
  function CheckByDateFilter(q: Query, filters: seq<Filter>): (r: Result<seq<Filter>>)
    ensures Get(q, BeforeDateQueryKey) == "" ==> r == Ok(filters)
    ensures Get(q, BeforeDateQueryKey) != "" && Parse(Get(q, BeforeDateQueryKey)).None? ==>
      r.Fail? && Is(r.err, InvalidQuery) && Is(r.err, InvalidTimeFormat)
    ensures Get(q, BeforeDateQueryKey) != "" && Parse(Get(q, BeforeDateQueryKey)).Some? ==>
      r == Ok(filters + [ByDateBefore(Parse(Get(q, BeforeDateQueryKey)).value)])
  {
    var beforeDate := Get(q, BeforeDateQueryKey);
    if beforeDate == "" then Ok(filters)
    else match Parse(beforeDate)
      case None => Fail(JoinWith(InvalidQuery, InvalidTimeFormatError(beforeDate)))
      case Some(date) => Ok(filters + [ByDateBefore(date)])
  }

  /** checkByNameFilter: the name is matched as a prefix. */
  function CheckByNameFilter(q: Query, filters: seq<Filter>): (r: seq<Filter>)
    ensures Get(q, NameStartingQueryKey) == "" ==> r == filters
    ensures Get(q, NameStartingQueryKey) != "" ==> r == filters + [ByName(Get(q, NameStartingQueryKey) + "%")]
  {
    var nameStarting := Get(q, NameStartingQueryKey);
    if nameStarting != "" then filters + [ByName(nameStarting + "%")] else filters
  }

  /** requestedFilters: storage, opened, date, name, each when asked for; the first failure aborts. */
  function RequestedFilters(q: Query, parse: string -> Result<seq<Byte>>): (r: Result<seq<Filter>>)
  {
    match CheckByStorageFilter(q, [], parse)
    case Fail(err) => Fail(err)
    case Ok(f1) =>
      match CheckByOpenedFilter(q, f1)
      case Fail(err) => Fail(err)
      case Ok(f2) =>
        match CheckByDateFilter(q, f2)
        case Fail(err) => Fail(err)
        case Ok(f3) => Ok(CheckByNameFilter(q, f3))
  }

  /** The filter a query key asks for, if any, once its value has been read. */
  function Wanted(q: Query, key: string, f: Filter): seq<Filter> {
    if Get(q, key) == "" then [] else [f]
  }

  /**
   * A query is accepted exactly when every value given is readable, and then its filters are
   * in the fixed order storage, opened, date, name, one per non-empty value.
   */
  lemma RequestedFiltersOrder(q: Query, parse: string -> Result<seq<Byte>>)
    ensures var storage := Get(q, StorageIdQueryKey); var openedText := Get(q, IsOpenedQueryKey);
      var date := Get(q, BeforeDateQueryKey);
      RequestedFilters(q, parse).Ok? <==>
        (storage == "" || StrToPgtype(storage, parse).Ok?)
        && (openedText == "" || openedText == "true" || openedText == "false")
        && (date == "" || Parse(date).Some?)
    ensures var r := RequestedFilters(q, parse);
      r.Ok? ==>
        var storage := Get(q, StorageIdQueryKey); var date := Get(q, BeforeDateQueryKey);
        r.value ==
          Wanted(q, StorageIdQueryKey, ByStorageId(if storage == "" then ZeroUuid else StrToPgtype(storage, parse).value))
          + Wanted(q, IsOpenedQueryKey, ByOpenedStatus(Get(q, IsOpenedQueryKey) == "true"))
          + Wanted(q, BeforeDateQueryKey, ByDateBefore(if date == "" then 0 else Parse(date).value))
          + Wanted(q, NameStartingQueryKey, ByName(Get(q, NameStartingQueryKey) + "%"))
  {
  }

  /** Which storage action the query asks for. */
  datatype DeleteOption = DeleteStorage | ClearStorage

  /** matchOption */
  function MatchOption(q: Query): (r: Result<DeleteOption>)
    ensures Get(q, OptionQueryKey) == "" ==> r == Fail(E(MissingParam))
    ensures Get(q, OptionQueryKey) == "delete" <==> r == Ok(DeleteStorage)
    ensures Get(q, OptionQueryKey) == "clear" <==> r == Ok(ClearStorage)
    ensures Get(q, OptionQueryKey) !in {"", "delete", "clear"} ==> r == Fail(E(OptionNotExists))
  {
    match Get(q, OptionQueryKey)
    case "" => Fail(E(MissingParam))
    case "delete" => Ok(DeleteStorage)
    case "clear" => Ok(ClearStorage)
    case _ => Fail(E(OptionNotExists))
  }

  const StoragesWithParam: string := "/storages/"

  /** idFromPath: the path after the route, as a UUID; nothing after it is a missing parameter. */
  function IdFromPath(path: string, route: string, parse: string -> Result<seq<Byte>>): (r: Result<Uuid>)
    ensures TrimPrefix(path, route) == "" ==> r == Fail(E(MissingParam))
    ensures TrimPrefix(path, route) != "" ==> r == StrToPgtype(TrimPrefix(path, route), parse)
  {
    var rawId := TrimPrefix(path, route);
    if rawId == "" then Fail(E(MissingParam)) else StrToPgtype(rawId, parse)
  }

  /** What the storage deletion handler did: the status it wrote, or its error. */
  datatype Handled = NoContent(option: DeleteOption, id: Uuid) | Refused(err: Error)

  /**
   * DeleteStorageRequest.Handle: the path id first, then the option, then the chosen
   * action; only a successful action writes 204.
   */
  function HandleDeleteStorage(path: string, q: Query, parse: string -> Result<seq<Byte>>,
                               action: (DeleteOption, Uuid) -> Option<Error>): (r: Handled)
    ensures IdFromPath(path, StoragesWithParam, parse).Fail? ==> r == Refused(IdFromPath(path, StoragesWithParam, parse).err)
    ensures IdFromPath(path, StoragesWithParam, parse).Ok? && MatchOption(q).Fail? ==> r == Refused(MatchOption(q).err)
    ensures r.NoContent? <==>
      IdFromPath(path, StoragesWithParam, parse).Ok? && MatchOption(q).Ok?
      && action(MatchOption(q).value, IdFromPath(path, StoragesWithParam, parse).value).None?
    ensures r.NoContent? ==> r.option == MatchOption(q).value && r.id == IdFromPath(path, StoragesWithParam, parse).value
  {
    match IdFromPath(path, StoragesWithParam, parse)
    case Fail(err) => Refused(err)
    case Ok(id) =>
      match MatchOption(q)
      case Fail(err) => Refused(err)
      case Ok(option) =>
        match action(option, id)
        case Some(err) => Refused(err)
        case None => NoContent(option, id)
  }
}
