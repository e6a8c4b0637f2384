/**
 * Fanning out user deletions (internal/id/usr/deletionnotifier/notifier.go): ids are popped
 * from the repository in batches of 100 and every registered deleter is given each batch.
 */
module DeletionNotifier {
  import opened Wrappers
  import opened Errors

  const BatchSize: nat := 100

  const ErrNothingLeft: Error := E(Message("nothing left to delete"))

  /** A call `DeleteUsers(ids)` made on the deleter registered at position `deleter`. */
  datatype DeleteCall = DeleteCall(deleter: nat, ids: seq<string>)

  /** The calls doDeletions makes: each deleter, in registration order, with the whole batch. */
  function Deletions(count: nat, ids: seq<string>): (calls: seq<DeleteCall>)
    ensures |calls| == count
    ensures forall i :: 0 <= i < count ==> calls[i] == DeleteCall(i, ids)
  {
    if count == 0 then [] else Deletions(count - 1, ids) + [DeleteCall(count - 1, ids)]
  }

  class UserDeletionNotifier {
    /** The registered deleters, named; an empty list is Go's nil slice. */
    var deleters: seq<string>
    /** The ids the repository still holds for deletion, in pop order. */
    var pending: seq<string>
    var calls: seq<DeleteCall>

    constructor (pending: seq<string>)
      ensures deleters == [] && this.pending == pending && calls == []
    {
      deleters := [];
      this.pending := pending;
      calls := [];
    }

    method RegisterSubscriber(subscriber: string)
      modifies this
      ensures deleters == old(deleters) + [subscriber]
      ensures pending == old(pending) && calls == old(calls)
    {
      deleters := deleters + [subscriber];
    }

    /**
     * deleteBatch: with no deleters nothing is popped and the result is nil; a pop error is
     * returned as is; an empty pop is the "nothing left to delete" error; otherwise every
     * deleter gets the popped batch.
     */
    method DeleteBatch(batchSize: nat, popError: Option<Error>) returns (err: Option<Error>)
      requires batchSize >= 1
      modifies this
      ensures deleters == old(deleters)
      ensures old(deleters) == [] ==> err.None? && pending == old(pending) && calls == old(calls)
      ensures old(deleters) != [] && popError.Some? ==> err == popError && pending == old(pending) && calls == old(calls)
      ensures old(deleters) != [] && popError.None? ==>
        var n := if |old(pending)| < batchSize then |old(pending)| else batchSize;
        pending == old(pending)[n..]
        && (n == 0 ==> err == Some(ErrNothingLeft) && calls == old(calls))
        && (n > 0 ==> err.None? && calls == old(calls) + Deletions(|deleters|, old(pending)[..n]))
    {
      if |deleters| == 0 {
        return None;
      }
      if popError.Some? {
        return popError;
      }
      var n := if |pending| < batchSize then |pending| else batchSize;
      var toDelete := pending[..n];
      pending := pending[n..];
      if |toDelete| == 0 {
        return Some(ErrNothingLeft);
      }
      DoDeletions(toDelete);
      return None;
    }

    /** doDeletions, with the deleters called one after another instead of concurrently. */
    method DoDeletions(toDelete: seq<string>)
      modifies this
      ensures calls == old(calls) + Deletions(|deleters|, toDelete)
      ensures deleters == old(deleters) && pending == old(pending)
    {
      var i := 0;
      while i < |deleters|
        invariant 0 <= i <= |deleters|
        invariant calls == old(calls) + Deletions(i, toDelete)
        invariant deleters == old(deleters) && pending == old(pending)
      {
        calls := calls + [DeleteCall(i, toDelete)];
        i := i + 1;
      }
    }

    /**
     * DeleteAll, observed for at most `rounds` batches: it loops while batches succeed and
     * returns the first error. `None` means it is still looping after those batches.
     */
    method DeleteAll(popError: nat -> Option<Error>, rounds: nat) returns (err: Option<Error>, batches: nat)
      modifies this
      ensures batches <= rounds && deleters == old(deleters)
      ensures err.None? ==> batches == rounds
      ensures old(deleters) == [] ==> err.None? && pending == old(pending) && calls == old(calls)
      ensures old(deleters) != [] ==>
        pending == old(pending)[Taken(|old(pending)|, batches)..]
        && calls == old(calls) + BatchDeletions(|deleters|, old(pending), batches)
      ensures err.Some? && popError(batches).Some? ==> err == popError(batches)
      ensures err.Some? && popError(batches).None? ==> err == Some(ErrNothingLeft) && pending == []
      ensures old(deleters) != [] && (forall k :: 0 <= k < rounds ==> popError(k).None?) && |old(pending)| + BatchSize <= BatchSize * rounds ==>
        err == Some(ErrNothingLeft) && pending == []
    {
      err, batches := None, 0;
      ghost var ids, calls0 := pending, calls;
      while err.None? && batches < rounds
        invariant batches <= rounds && deleters == old(deleters)
        invariant deleters == [] ==> err.None? && pending == ids && calls == calls0
        invariant deleters != [] ==> Progress(ids, calls0, |deleters|, batches, pending, calls)
        invariant err.Some? ==> batches < rounds && Ended(err.value, popError(batches), pending)
        invariant deleters != [] && err.None? && batches > 0 ==> |ids| > BatchSize * (batches - 1)
        decreases rounds - batches, if err.None? then 1 else 0
      {
        ghost var before, done := pending, calls;
        err := DeleteBatch(BatchSize, popError(batches));
        if deleters != [] {
          Round(ids, calls0, |deleters|, batches, popError(batches), before, done, err, pending, calls);
        }
        if err.None? {
          batches := batches + 1;
        }
      }
    }
  }

  /** How many of `len` ids the first `batches` batches of 100 take. */
  function Taken(len: nat, batches: nat): (n: nat)
    ensures n <= len && n <= BatchSize * batches
    ensures n == len || n == BatchSize * batches
  {
    if len < BatchSize * batches then len else BatchSize * batches
  }

  /** The `k`-th batch of 100 ids taken from `ids` (empty once they run out). */
  function Batch(ids: seq<string>, k: nat): (b: seq<string>)
    ensures |b| <= BatchSize
  {
    ids[Taken(|ids|, k)..Taken(|ids|, k + 1)]
  }

  /** The ids of the first `batches` batches, in pop order. */
  function Popped(ids: seq<string>, batches: nat): seq<string>
  {
    if batches == 0 then [] else Popped(ids, batches - 1) + Batch(ids, batches - 1)
  }

  /** The deleter calls of the first `batches` batches: each batch given to every deleter. */
  function BatchDeletions(count: nat, ids: seq<string>, batches: nat): seq<DeleteCall>
  {
    if batches == 0 then [] else BatchDeletions(count, ids, batches - 1) + Deletions(count, Batch(ids, batches - 1))
  }

  /** The batches taken one after another are the front of the ids, without a gap or a repeat. */
  lemma {:induction false} PoppedIsPrefix(ids: seq<string>, batches: nat)
    ensures Popped(ids, batches) == ids[..Taken(|ids|, batches)]
  {
    if batches > 0 {
      PoppedIsPrefix(ids, batches - 1);
    }
  }

  /** After `k` batches of `ids`, `pending` holds the rest and `calls` the deletions of those batches. */
  predicate Progress(ids: seq<string>, calls0: seq<DeleteCall>, count: nat, k: nat,
                     pending: seq<string>, calls: seq<DeleteCall>) {
    pending == ids[Taken(|ids|, k)..] && calls == calls0 + BatchDeletions(count, ids, k)
  }

  /** DeleteAll's loop ends on `err`: the round's pop error, or "nothing left" with nothing pending. */
  predicate Ended(err: Error, popError: Option<Error>, pending: seq<string>) {
    (popError.Some? ==> Some(err) == popError) && (popError.None? ==> err == ErrNothingLeft && pending == [])
  }

  /**
   * One round of DeleteAll with `count` deleters, after `k` successful batches: a pop error
   * is returned, an empty pop is "nothing left", and a non-empty pop is the `k`-th batch, given
   * to every deleter.
   */
  lemma Round(ids: seq<string>, calls0: seq<DeleteCall>, count: nat, k: nat, popError: Option<Error>,
              before: seq<string>, done: seq<DeleteCall>, err: Option<Error>, after: seq<string>, calls: seq<DeleteCall>)
    requires Progress(ids, calls0, count, k, before, done)
    requires popError.Some? ==> err == popError && after == before && calls == done
    requires popError.None? ==>
      var n := if |before| < BatchSize then |before| else BatchSize;
      after == before[n..]
      && (n == 0 ==> err == Some(ErrNothingLeft) && calls == done)
      && (n > 0 ==> err.None? && calls == done + Deletions(count, before[..n]))
    ensures err.None? ==> Progress(ids, calls0, count, k + 1, after, calls) && |ids| > BatchSize * k
    ensures err.Some? ==> Ended(err.value, popError, after)
  {
    if err.None? {
      TakeBatch(ids, before, after, k);
      assert calls == done + Deletions(count, Batch(ids, k));
    }
  }

  /**
   * A non-empty pop of up to 100 ids from what the first `k` batches left is the `k`-th batch,
   * and leaves what the first `k + 1` batches leave.
   */
  lemma TakeBatch(ids: seq<string>, rest: seq<string>, after: seq<string>, k: nat)
    requires rest == ids[Taken(|ids|, k)..]
    requires after == rest[if |rest| < BatchSize then |rest| else BatchSize..] && |after| < |rest|
    ensures rest[..|rest| - |after|] == Batch(ids, k)
    ensures after == ids[Taken(|ids|, k + 1)..]
    ensures |ids| > BatchSize * k
  {
  }
}
