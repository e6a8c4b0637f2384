/**
 * The storage service (internal/reminder/storage/service.go): adding with a given or a
 * random name, updating, clearing and deleting, and the errors made from repository flags.
 * Repository answers and random names are parameters; every repository call is recorded.
 */
module StorageService {
  import opened Wrappers
  import opened Errors
  import opened Text
  import opened GenUuid
  import opened UserCtx

  datatype Storage = Storage(id: Uuid, name: string, itemsCount: int, isDefault: bool)

  datatype StorageCall =
    | AddCall(toAdd: Storage, ownerId: Uuid)
    | UpdateCall(updated: Storage, ownerId: Uuid)
    | ClearCall(storageId: Uuid, ownerId: Uuid)
    | ForbiddenCheckCall(storageId: Uuid, ownerId: Uuid)
    | DeleteCall(storageId: Uuid, ownerId: Uuid)

  /** The repository's answer to `add` and `update`: the done flag, the stored row, the error. */
  datatype Answer = Answer(done: bool, stored: Option<Storage>, err: Option<Error>)

  /** The repository's answer to `clear`, `isForbiddenToDelete` and `delete`. */
  datatype FlagAnswer = FlagAnswer(flag: bool, err: Option<Error>)

  const AllowedAttempts: nat := 5

  /** errorIfStorageNotExists */
  function ErrorIfStorageNotExists(isExists: bool): (r: Option<Error>)
    ensures r.None? <==> isExists
    ensures r.Some? ==> r.value == E(StorageNotExists)
  {
    if !isExists then Some(E(StorageNotExists)) else None
  }

  /** errorIfStorageNameNotUnique */
  function ErrorIfStorageNameNotUnique(isUnique: bool): (r: Option<Error>)
    ensures r.None? <==> isUnique
    ensures r.Some? ==> r.value == E(StorageNameNotUnique)
  {
    if !isUnique then Some(E(StorageNameNotUnique)) else None
  }

  /** checkForStorageNotUniqueNameError: a duplicate is also reported as a name clash. */
  function CheckForStorageNotUniqueNameError(err: Error): (r: Error)
    ensures Is(err, AddedDuplicateOfUnique) ==> Is(r, StorageNameNotUnique)
    ensures !Is(err, AddedDuplicateOfUnique) ==> r == err
    ensures forall k :: Is(err, k) ==> Is(r, k)
  {
    if Is(err, AddedDuplicateOfUnique) then JoinWith(StorageNameNotUnique, err) else err
  }

  /** The storage to add: the made-valid id and the given name. */
  function ToAdd(id: Uuid, name: string): Storage {
    Storage(id, name, 0, false)
  }

  /** An attempt that ends the random-name loop: it was stored, or it failed. */
  predicate Settled(a: Answer) {
    a.done || a.err.Some?
  }

  /** The first of the attempts `from .. limit - 1` that settles, or `limit` when none does. */
  function FirstSettled(add: nat -> Answer, from: nat, limit: nat): (j: nat)
    requires from <= limit
    ensures from <= j <= limit
    ensures forall k :: from <= k < j ==> !Settled(add(k))
    ensures j < limit ==> Settled(add(j))
    decreases limit - from
  {
    if from == limit then limit
    else if Settled(add(from)) then from
    else FirstSettled(add, from + 1, limit)
  }

  /** The add calls of the random-name attempts `0 .. n - 1`. */
  function RandomCalls(id: Uuid, owner: Uuid, randomName: nat -> string, n: nat): (calls: seq<StorageCall>)
    ensures |calls| == n
    ensures forall k :: 0 <= k < n ==> calls[k] == AddCall(ToAdd(id, randomName(k)), owner)
  {
    if n == 0 then [] else RandomCalls(id, owner, randomName, n - 1) + [AddCall(ToAdd(id, randomName(n - 1)), owner)]
  }

  /**
   * tryAddWithRandomNames: up to `allowedAttempts` adds, each with a fresh random name;
   * the first that is stored or fails ends the loop with `done`.
   */
  method TryAddWithRandomNames(id: Uuid, owner: Uuid, allowedAttempts: nat, randomName: nat -> string, add: nat -> Answer)
    returns (done: bool, stored: Option<Storage>, err: Option<Error>, calls: seq<StorageCall>)
    ensures var j := FirstSettled(add, 0, allowedAttempts);
      && done == (j < allowedAttempts)
      && calls == RandomCalls(id, owner, randomName, if done then j + 1 else allowedAttempts)
      && (done && add(j).err.Some? ==> stored.None? && err == add(j).err)
      && (done && add(j).err.None? ==> stored == add(j).stored && err.None?)
      && (!done ==> stored.None? && err.None?)
  {
    calls := [];
    var i := 0;
    while i < allowedAttempts
      invariant i <= allowedAttempts
      invariant forall k :: 0 <= k < i ==> !Settled(add(k))
      invariant calls == RandomCalls(id, owner, randomName, i)
    {
      var answer := add(i);
      calls := calls + [AddCall(ToAdd(id, randomName(i)), owner)];
      if answer.err.Some? {
        FirstSettledIs(add, 0, allowedAttempts, i);
        return true, None, answer.err, calls;
      }
      if answer.done {
        FirstSettledIs(add, 0, allowedAttempts, i);
        return true, answer.stored, None, calls;
      }
      i := i + 1;
    }
    FirstSettledIs(add, 0, allowedAttempts, allowedAttempts);
    return false, None, None, calls;
  }

  /** The first settled attempt is the one before which none settles. */
  lemma {:induction false} FirstSettledIs(add: nat -> Answer, from: nat, limit: nat, i: nat)
    requires from <= i <= limit
    requires forall k :: from <= k < i ==> !Settled(add(k))
    requires i < limit ==> Settled(add(i))
    ensures FirstSettled(add, from, limit) == i
    decreases limit - from
  {
    if from < i {
      FirstSettledIs(add, from + 1, limit, i);
    }
  }

  /**
   * AddWithID: the id is made valid first. A given name makes exactly one add. An empty
   * name makes up to five adds with random names and, when none of them settles, one
   * more with a random name with digits.
   */
  method AddWithId(user: UserId, storageId: Uuid, name: string, drawn: seq<Byte>,
                   randomName: nat -> string, digitsName: string, add: nat -> Answer)
    returns (result: Option<Storage>, err: Option<Error>, calls: seq<StorageCall>)
    ensures user.DecodeFailed? ==> result.None? && err == Some(user.err) && calls == []
    ensures |calls| <= AllowedAttempts + 1
    ensures user.UserId? ==> forall c :: c in calls ==> c.AddCall? && c.toAdd.id == MakeValidIfNeeded(storageId, drawn)
    ensures user.UserId? && name != "" ==>
      var id := MakeValidIfNeeded(storageId, drawn);
      && calls == [AddCall(ToAdd(id, name), user.id)]
      && (add(0).err.Some? ==> result.None? && err == add(0).err)
      && (add(0).err.None? ==> result == add(0).stored && err == ErrorIfStorageNameNotUnique(add(0).done))
    ensures user.UserId? && name == "" ==>
      var id := MakeValidIfNeeded(storageId, drawn);
      var j := FirstSettled(add, 0, AllowedAttempts);
      && (j < AllowedAttempts ==>
          calls == RandomCalls(id, user.id, randomName, j + 1)
          && (add(j).err.Some? ==> result.None? && err == add(j).err)
          && (add(j).err.None? ==> result == add(j).stored && err.None?))
      && (j == AllowedAttempts ==>
          calls == RandomCalls(id, user.id, randomName, AllowedAttempts) + [AddCall(ToAdd(id, digitsName), user.id)]
          && (add(AllowedAttempts).err.Some? ==> result.None? && err == add(AllowedAttempts).err)
          && (add(AllowedAttempts).err.None? ==>
              result == add(AllowedAttempts).stored && err == ErrorIfStorageNameNotUnique(add(AllowedAttempts).done)))
  {
    if user.DecodeFailed? {
      return None, Some(user.err), [];
    }
    var id := MakeValidIfNeeded(storageId, drawn);
    if name != "" {
      var answer := add(0);
      calls := [AddCall(ToAdd(id, name), user.id)];
      if answer.err.Some? {
        return None, answer.err, calls;
      }
      return answer.stored, ErrorIfStorageNameNotUnique(answer.done), calls;
    }
    var done;
    done, result, err, calls := TryAddWithRandomNames(id, user.id, AllowedAttempts, randomName, add);
    if done || err.Some? {
      return;
    }
    var answer := add(AllowedAttempts);
    calls := calls + [AddCall(ToAdd(id, digitsName), user.id)];
    if answer.err.Some? {
      return None, answer.err, calls;
    }
    return answer.stored, ErrorIfStorageNameNotUnique(answer.done), calls;
  }

  function Update(user: UserId, updated: Storage, answer: Answer): (r: (Option<Storage>, Option<Error>, seq<StorageCall>))
    ensures user.DecodeFailed? ==> r == (None, Some(user.err), [])
    ensures user.UserId? ==> r.2 == [UpdateCall(updated, user.id)]
    ensures user.UserId? && answer.err.Some? ==> r.0.None? && r.1 == Some(CheckForStorageNotUniqueNameError(answer.err.value))
    ensures user.UserId? && answer.err.None? ==> r.0 == answer.stored && r.1 == ErrorIfStorageNotExists(answer.done)
  {
    match user
    case DecodeFailed(err) => (None, Some(err), [])
    case UserId(u) =>
      var calls := [UpdateCall(updated, u)];
      if answer.err.Some? then (None, Some(CheckForStorageNotUniqueNameError(answer.err.value)), calls)
      else (answer.stored, ErrorIfStorageNotExists(answer.done), calls)
  }

  function Clear(user: UserId, storageId: Uuid, answer: FlagAnswer): (r: (Option<Error>, seq<StorageCall>))
    ensures user.DecodeFailed? ==> r == (Some(user.err), [])
    ensures user.UserId? ==> r.1 == [ClearCall(storageId, user.id)]
    ensures user.UserId? && answer.err.Some? ==> r.0 == answer.err
    ensures user.UserId? && answer.err.None? ==> r.0 == ErrorIfStorageNotExists(answer.flag)
  {
    match user
    case DecodeFailed(err) => (Some(err), [])
    case UserId(u) =>
      var calls := [ClearCall(storageId, u)];
      if answer.err.Some? then (answer.err, calls) else (ErrorIfStorageNotExists(answer.flag), calls)
  }

  /**
   * Delete: a storage the repository forbids deleting gives ErrDeletingNotAllowed without a
   * delete; otherwise only the delete's error counts, and a missing storage is no error.
   */
  function Delete(user: UserId, storageId: Uuid, forbidden: FlagAnswer, deleted: FlagAnswer): (r: (Option<Error>, seq<StorageCall>))
    ensures user.DecodeFailed? ==> r == (Some(user.err), [])
    ensures user.UserId? ==> |r.1| >= 1 && r.1[0] == ForbiddenCheckCall(storageId, user.id)
    ensures user.UserId? && forbidden.err.Some? ==> r == (forbidden.err, [ForbiddenCheckCall(storageId, user.id)])
    ensures user.UserId? && forbidden.err.None? && forbidden.flag ==>
      r == (Some(E(DeletingNotAllowed)), [ForbiddenCheckCall(storageId, user.id)])
    ensures user.UserId? && forbidden.err.None? && !forbidden.flag ==>
      r == (deleted.err, [ForbiddenCheckCall(storageId, user.id), DeleteCall(storageId, user.id)])
  {
    match user
    case DecodeFailed(err) => (Some(err), [])
    case UserId(u) =>
      var check := ForbiddenCheckCall(storageId, u);
      if forbidden.err.Some? then (forbidden.err, [check])
      else if forbidden.flag then (Some(E(DeletingNotAllowed)), [check])
      else (deleted.err, [check, DeleteCall(storageId, u)])
  }

  /** A forbidden storage is never deleted. */
  lemma ForbiddenNeverDeleted(user: UserId, storageId: Uuid, forbidden: FlagAnswer, deleted: FlagAnswer)
    requires forbidden.flag || forbidden.err.Some?
    ensures forall c :: c in Delete(user, storageId, forbidden, deleted).1 ==> !c.DeleteCall?
  {
  }
}
