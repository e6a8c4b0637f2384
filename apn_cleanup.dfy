/**
 * Deleting the device tokens APNs reported as dead (internal/reminder/apn/deletingserivce.go):
 * batches of at most 100 are popped from the set of bad tokens and deleted from the device
 * table until a batch fails, the set is empty, or the context ends.
 */
module ApnCleanup {
  import opened Wrappers
  import opened Errors
  import ApnRepository

  const BatchSize: nat := 100

  const ErrNoBadTokensLeft: Error := E(Message("no saved bad tokens left"))

  /** The answers of the outside world to batch `k`: each store's error, and the context's error before it. */
  datatype World = World(
    popError: nat -> Option<Error>,
    execError: nat -> Option<Error>,
    ctxError: nat -> Option<Error>)

  predicate Calm(w: World, k: nat) {
    w.popError(k).None? && w.execError(k).None? && w.ctxError(k).None?
  }

  function ToSet(s: seq<string>): set<string> {
    set t | t in s
  }

  /** The bad-token set (popped from the front, standing in for SPOP) and the device-token table. */
  class InactiveTokensDeletingService {
    var badTokens: seq<string>
    var devices: set<string>
    var removals: seq<seq<string>>

    constructor (badTokens: seq<string>, devices: set<string>)
      ensures this.badTokens == badTokens && this.devices == devices && removals == []
    {
      this.badTokens := badTokens;
      this.devices := devices;
      removals := [];
    }

    /**
     * deleteBatch: pop up to `size` tokens; an empty pop is the "no saved bad tokens left"
     * error and deletes nothing; otherwise the popped tokens, unchanged, go to removeDeviceTokens.
     */
    method DeleteBatch(size: nat, popError: Option<Error>, execError: Option<Error>) returns (err: Option<Error>, popped: seq<string>)
      requires size >= 1
      modifies this
      ensures popError.Some? ==>
        err == popError && popped == [] && badTokens == old(badTokens)
        && devices == old(devices) && removals == old(removals)
      ensures popError.None? ==>
        popped == old(badTokens)[..if |old(badTokens)| < size then |old(badTokens)| else size]
        && badTokens == old(badTokens)[|popped|..]
      ensures popError.None? && popped == [] ==> err == Some(ErrNoBadTokensLeft) && devices == old(devices) && removals == old(removals)
      ensures popError.None? && popped != [] ==>
        removals == old(removals) + [popped]
        && err == HandleQueryErr(execError)
        && devices == (if execError.None? then old(devices) - ToSet(popped) else old(devices))
    {
      if popError.Some? {
        return popError, [];
      }
      var n := if |badTokens| < size then |badTokens| else size;
      popped := badTokens[..n];
      badTokens := badTokens[n..];
      if |popped| == 0 {
        return Some(ErrNoBadTokensLeft), popped;
      }
      var outcome := ApnRepository.RemoveDeviceTokens(popped, _ => execError);
      removals := removals + [popped];
      if outcome.err.None? {
        devices := devices - ToSet(popped);
      }
      return outcome.err, popped;
    }

    /**
     * RunWithCtx: batches run while they succeed; the result is the context's error, or the
     * error that ended the last batch, and never nil. `removed` counts the bad tokens that
     * were deleted from the device table.
     */
    method RunWithCtx(w: World) returns (err: Error, batches: nat, removed: nat)
      modifies this
      ensures removed <= |old(badTokens)| - |badTokens| <= removed + BatchSize
      ensures badTokens == old(badTokens)[|old(badTokens)| - |badTokens|..]
      ensures devices == old(devices) - ToSet(old(badTokens)[..removed])
      ensures (forall k :: 0 <= k <= batches ==> Calm(w, k)) ==> err == ErrNoBadTokensLeft && badTokens == []
      ensures (forall k :: 0 <= k <= batches ==> Calm(w, k)) ==> removed == |old(badTokens)|
      ensures w.ctxError(batches).Some? ==> err == w.ctxError(batches).value && removed == |old(badTokens)| - |badTokens|
      ensures w.ctxError(batches).None? && w.popError(batches).Some? ==>
        err == w.popError(batches).value && removed == |old(badTokens)| - |badTokens|
      ensures w.ctxError(batches).None? && w.popError(batches).None? && removed == |old(badTokens)| ==>
        err == ErrNoBadTokensLeft
      ensures w.ctxError(batches).None? && w.popError(batches).None? && removed < |old(badTokens)| ==>
        w.execError(batches).Some? && Some(err) == HandleQueryErr(w.execError(batches))
      ensures forall k :: 0 <= k < batches ==> Calm(w, k)
    {
      batches, removed := 0, 0;
      while true
        invariant removed == |old(badTokens)| - |badTokens|
        invariant badTokens == old(badTokens)[removed..]
        invariant devices == old(devices) - ToSet(old(badTokens)[..removed])
        invariant forall k :: 0 <= k < batches ==> Calm(w, k)
        decreases |badTokens|
      {
        if w.ctxError(batches).Some? {
          assert !Calm(w, batches);
          return w.ctxError(batches).value, batches, removed;
        }
        var before := badTokens;
        var batchError, popped := DeleteBatch(BatchSize, w.popError(batches), w.execError(batches));
        if batchError.Some? {
          assert !Calm(w, batches) || popped == [];
          assert popped == before[..|popped|];
          if popped != [] {
            assert old(badTokens)[removed..][..|popped|] == old(badTokens)[removed..removed + |popped|];
          }
          return batchError.value, batches, removed;
        }
        assert popped != [] && w.execError(batches).None?;
        assert old(badTokens)[..removed + |popped|] == old(badTokens)[..removed] + popped;
        assert ToSet(old(badTokens)[..removed + |popped|]) == ToSet(old(badTokens)[..removed]) + ToSet(popped);
        removed := removed + |popped|;
        batches := batches + 1;
      }
    }
  }
}
