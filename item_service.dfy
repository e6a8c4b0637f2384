/**
 * The item service (internal/reminder/item/service.go): the user id is decoded first,
 * then the repository is asked, and its answers are turned into results and errors.
 * Repository answers are parameters; every repository call made is recorded.
 */
module ItemService {
  import opened Wrappers
  import opened Errors
  import opened Text
  import opened Rfc3339
  import opened GenUuid
  import opened ItemModel
  import opened ItemFilter
  import opened UserCtx

  datatype ToCopy = ToCopy(originalId: Uuid, newId: Uuid, dateAdded: Instant)

  datatype RepoCall =
    | ByIdCall(userId: Uuid, id: Uuid)
    | AllCall(userId: Uuid, filters: seq<Filter>)
    | AddCall(userId: Uuid, storageId: Uuid, toAdd: Item)
    | UpdateCall(userId: Uuid, item: Item)
    | DeleteCall(userId: Uuid, itemId: Uuid)
    | CopyCall(userId: Uuid, toCopy: ToCopy)
    | SearchCall(userId: Uuid, pattern: string, limit: int)

  /** What a service method returns, and the repository calls it made. */
  datatype Outcome<T> = Outcome(result: Option<T>, err: Option<Error>, calls: seq<RepoCall>)

  /** The repository's answer to `byID`. */
  datatype Lookup = Found(item: Item) | LookupFailed(err: Error)

  /** The repository's answer to `add` and `copy`: found flag (storage or original), done flag, new item, error. */
  datatype Insert = Insert(found: bool, done: bool, newItem: Option<Item>, err: Option<Error>)

  function ByID(user: UserId, id: Uuid, answer: Lookup): (r: Outcome<Item>)
    ensures user.DecodeFailed? ==> r == Outcome(None, Some(user.err), [])
    ensures user.UserId? ==> r.calls == [ByIdCall(user.id, id)]
    ensures user.UserId? && answer.LookupFailed? && Is(answer.err, NoRows) ==> r.result.None? && r.err == Some(E(ItemNotExists))
    ensures user.UserId? && answer.LookupFailed? && !Is(answer.err, NoRows) ==> r.result.None? && r.err == Some(answer.err)
    ensures user.UserId? && answer.Found? ==> r.result == Some(answer.item) && r.err.None?
  {
    match user
    case DecodeFailed(err) => Outcome(None, Some(err), [])
    case UserId(u) =>
      var calls := [ByIdCall(u, id)];
      match answer
      case LookupFailed(err) =>
        if Is(err, NoRows) then Outcome(None, Some(E(ItemNotExists)), calls) else Outcome(None, Some(err), calls)
      case Found(item) => Outcome(Some(item), None, calls)
  }

  function All(user: UserId, filters: seq<Filter>, answer: (Option<seq<Item>>, Option<Error>)): (r: Outcome<seq<Item>>)
    ensures user.DecodeFailed? ==> r == Outcome(None, Some(user.err), [])
    ensures user.UserId? ==> r == Outcome(answer.0, answer.1, [AllCall(user.id, filters)])
  {
    match user
    case DecodeFailed(err) => Outcome(None, Some(err), [])
    case UserId(u) => Outcome(answer.0, answer.1, [AllCall(u, filters)])
  }

  /**
   * Add: the item's id is made valid first; a repository error wins, then a missing
   * storage, then a duplicate.
   */
  function Add(user: UserId, storageId: Uuid, toAdd: Item, drawn: seq<Byte>, answer: Insert): (r: Outcome<Item>)
    ensures user.DecodeFailed? ==> r == Outcome(None, Some(user.err), [])
    ensures user.UserId? ==>
      r.calls == [AddCall(user.id, storageId, toAdd.(id := MakeValidIfNeeded(toAdd.id, drawn)))]
    ensures user.UserId? ==> r.calls[0].toAdd.id.valid
    ensures user.UserId? && answer.err.Some? ==> r.result.None? && r.err == answer.err
    ensures user.UserId? && answer.err.None? && !answer.found ==> r.result.None? && r.err == Some(E(StorageNotExists))
    ensures user.UserId? && answer.err.None? && answer.found && !answer.done ==>
      r.result.None? && r.err == Some(E(AddedDuplicateOfUnique))
    ensures user.UserId? && answer.err.None? && answer.found && answer.done ==> r.result == answer.newItem && r.err.None?
  {
    match user
    case DecodeFailed(err) => Outcome(None, Some(err), [])
    case UserId(u) =>
      var calls := [AddCall(u, storageId, toAdd.(id := MakeValidIfNeeded(toAdd.id, drawn)))];
      if answer.err.Some? then Outcome(None, answer.err, calls)
      else if !answer.found then Outcome(None, Some(E(StorageNotExists)), calls)
      else if !answer.done then Outcome(None, Some(E(AddedDuplicateOfUnique)), calls)
      else Outcome(answer.newItem, None, calls)
  }

  /**
   * Update: a missing stored item is ErrItemNotExists; an item equal to the stored one is
   * returned as stored without an update; otherwise the expiration date is recomputed, the
   * date added is taken from the stored item, and the update's error is returned with it.
   */
  function Update(user: UserId, updated: Item, now: Instant, stored: Lookup, updateErr: Option<Error>): (r: Outcome<Item>)
    ensures user.DecodeFailed? ==> r == Outcome(None, Some(user.err), [])
    ensures user.UserId? ==> |r.calls| >= 1 && r.calls[0] == ByIdCall(user.id, updated.id)
    ensures user.UserId? && stored.LookupFailed? ==> |r.calls| == 1 && r.result.None?
    ensures user.UserId? && stored.LookupFailed? && Is(stored.err, NoRows) ==> r.err == Some(E(ItemNotExists))
    ensures user.UserId? && stored.LookupFailed? && !Is(stored.err, NoRows) ==> r.err == Some(stored.err)
    ensures user.UserId? && stored.Found? && IsEqual(updated, stored.item) ==>
      r == Outcome(Some(stored.item), None, [ByIdCall(user.id, updated.id)])
    ensures user.UserId? && stored.Found? && !IsEqual(updated, stored.item) ==>
      var saved := UpdateExpirationDate(updated, stored.item, now).(dateAdded := stored.item.dateAdded);
      r == Outcome(Some(saved), updateErr, [ByIdCall(user.id, updated.id), UpdateCall(user.id, saved)])
  {
    match user
    case DecodeFailed(err) => Outcome(None, Some(err), [])
    case UserId(u) =>
      var lookup := ByIdCall(u, updated.id);
      match stored
      case LookupFailed(err) =>
        if Is(err, NoRows) then Outcome(None, Some(E(ItemNotExists)), [lookup]) else Outcome(None, Some(err), [lookup])
      case Found(oldItem) =>
        if IsEqual(updated, oldItem) then Outcome(Some(oldItem), None, [lookup])
        else
          var saved := UpdateExpirationDate(updated, oldItem, now).(dateAdded := oldItem.dateAdded);
          Outcome(Some(saved), updateErr, [lookup, UpdateCall(u, saved)])
  }

  /** Whatever Update returns keeps the stored date added, and the submitted fields. */
  lemma UpdateKeepsStoredDateAdded(user: UserId, updated: Item, now: Instant, stored: Item, updateErr: Option<Error>)
    requires user.UserId?
    ensures var r := Update(user, updated, now, Found(stored), updateErr);
      r.result.Some? && r.result.value.dateAdded == stored.dateAdded && IsEqual(r.result.value, updated)
  {
  }

  function Delete(user: UserId, itemId: Uuid, deleteErr: Option<Error>): (r: Outcome<()>)
    ensures user.DecodeFailed? ==> r == Outcome(None, Some(user.err), [])
    ensures user.UserId? ==> r == Outcome(None, deleteErr, [DeleteCall(user.id, itemId)])
  {
    match user
    case DecodeFailed(err) => Outcome(None, Some(err), [])
    case UserId(u) => Outcome(None, deleteErr, [DeleteCall(u, itemId)])
  }

  /** Copy: as Add, with a missing original in place of a missing storage. */
  function Copy(user: UserId, toCopy: ToCopy, drawn: seq<Byte>, answer: Insert): (r: Outcome<Item>)
    ensures user.DecodeFailed? ==> r == Outcome(None, Some(user.err), [])
    ensures user.UserId? ==>
      r.calls == [CopyCall(user.id, toCopy.(newId := MakeValidIfNeeded(toCopy.newId, drawn)))]
    ensures user.UserId? ==> r.calls[0].toCopy.newId.valid
    ensures user.UserId? && answer.err.Some? ==> r.result.None? && r.err == answer.err
    ensures user.UserId? && answer.err.None? && !answer.found ==> r.result.None? && r.err == Some(E(ItemNotExists))
    ensures user.UserId? && answer.err.None? && answer.found && !answer.done ==>
      r.result.None? && r.err == Some(E(AddedDuplicateOfUnique))
    ensures user.UserId? && answer.err.None? && answer.found && answer.done ==> r.result == answer.newItem && r.err.None?
  {
    match user
    case DecodeFailed(err) => Outcome(None, Some(err), [])
    case UserId(u) =>
      var calls := [CopyCall(u, toCopy.(newId := MakeValidIfNeeded(toCopy.newId, drawn)))];
      if answer.err.Some? then Outcome(None, answer.err, calls)
      else if !answer.found then Outcome(None, Some(E(ItemNotExists)), calls)
      else if !answer.done then Outcome(None, Some(E(AddedDuplicateOfUnique)), calls)
      else Outcome(answer.newItem, None, calls)
  }

  /** The name search pattern: the input, verbatim, at a word start. */
  function SearchPattern(toSearch: string): (p: string)
    ensures |p| == |toSearch| + 10
    ensures p[..6] == "(^|\\s)" && p[6..6 + |toSearch|] == toSearch && p[6 + |toSearch|..] == "(.*)"
  {
    "(^|\\s)" + toSearch + "(.*)"
  }

  /**
   * SearchSavedNames: one search for the context's user, asking for names that hold the
   * input verbatim at a word start, with the given limit; its answer is returned as is.
   */
  function SearchSavedNames(user: UserId, toSearch: string, limit: int, answer: (Option<seq<string>>, Option<Error>)): (r: Outcome<seq<string>>)
    ensures user.DecodeFailed? ==> r == Outcome(None, Some(user.err), [])
    ensures user.UserId? ==>
      r.result == answer.0 && r.err == answer.1 && |r.calls| == 1 && r.calls[0].SearchCall?
      && r.calls[0].userId == user.id && r.calls[0].limit == limit
    ensures user.UserId? ==>
      var p := r.calls[0].pattern;
      |p| == |toSearch| + 10 && p[..6] == "(^|\\s)" && p[6..|p| - 4] == toSearch && p[|p| - 4..] == "(.*)"
  {
    match user
    case DecodeFailed(err) => Outcome(None, Some(err), [])
    case UserId(u) => Outcome(answer.0, answer.1, [SearchCall(u, SearchPattern(toSearch), limit)])
  }

  /** Every call is made for the context's user, and only when the context holds a valid one. */
  predicate ScopedTo(calls: seq<RepoCall>, stored: Option<Uuid>) {
    forall c :: c in calls ==> stored.Some? && stored.value.valid && c.userId == stored.value
  }

  /**
   * Every item operation asks the repository only on behalf of the user the request context
   * holds; a context without a valid user id makes no call and fails with the decode error.
   */
  lemma CallsScopedToUser(stored: Option<Uuid>, id: Uuid, lookup: Lookup, filters: seq<Filter>,
                          listed: (Option<seq<Item>>, Option<Error>), storageId: Uuid, toAdd: Item,
                          drawn: seq<Byte>, inserted: Insert, updated: Item, now: Instant,
                          writeErr: Option<Error>, toCopy: ToCopy, toSearch: string, limit: int,
                          found: (Option<seq<string>>, Option<Error>))
    ensures var user := Decode(stored);
      ScopedTo(ByID(user, id, lookup).calls, stored) && ScopedTo(All(user, filters, listed).calls, stored)
      && ScopedTo(Add(user, storageId, toAdd, drawn, inserted).calls, stored)
      && ScopedTo(Update(user, updated, now, lookup, writeErr).calls, stored)
      && ScopedTo(Delete(user, id, writeErr).calls, stored)
      && ScopedTo(Copy(user, toCopy, drawn, inserted).calls, stored)
      && ScopedTo(SearchSavedNames(user, toSearch, limit, found).calls, stored)
    ensures !(stored.Some? && stored.value.valid) ==>
      var user := Decode(stored);
      var refused := (Some(ErrNoUserId), []);
      (ByID(user, id, lookup).err, ByID(user, id, lookup).calls) == refused
      && (All(user, filters, listed).err, All(user, filters, listed).calls) == refused
      && (Add(user, storageId, toAdd, drawn, inserted).err, Add(user, storageId, toAdd, drawn, inserted).calls) == refused
      && (Update(user, updated, now, lookup, writeErr).err, Update(user, updated, now, lookup, writeErr).calls) == refused
      && (Delete(user, id, writeErr).err, Delete(user, id, writeErr).calls) == refused
      && (Copy(user, toCopy, drawn, inserted).err, Copy(user, toCopy, drawn, inserted).calls) == refused
      && (SearchSavedNames(user, toSearch, limit, found).err, SearchSavedNames(user, toSearch, limit, found).calls) == refused
  {
  }

  /**
   * The item byID answers with: every column but the id, which the query does not select,
   * so the id stays the zero `pgtype.UUID`.
   */
  function ScannedById(stored: Item): (r: Item)
    ensures r.id == ZeroUuid && r.(id := stored.id) == stored
  {
    stored.(id := ZeroUuid)
  }

  /**
   * As written, Update never takes its unchanged-item branch: the stored item comes back
   * without its id, while the updated item carries the valid id of the request path, so
   * the two are never equal and the update call is always made.
   */
  lemma UpdateAsWrittenAlwaysUpdates(user: UserId, updated: Item, now: Instant, stored: Item, updateErr: Option<Error>)
    requires user.UserId? && updated.id.valid
    ensures var r := Update(user, updated, now, Found(ScannedById(stored)), updateErr);
      |r.calls| == 2 && r.calls[1].UpdateCall? && r.err == updateErr
  {
  }
}
