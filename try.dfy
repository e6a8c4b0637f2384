/**
 * The retry helper (internal/shared/try/dowithattempts.go): calls `f` once, and after a
 * failure once per ticker tick until it succeeds or the context is cancelled.
 */
module Try {
  import opened Wrappers
  import opened Errors

  /** What the waiting loop sees next: a tick of the ticker, or the cancellation of the context. */
  datatype Signal = Tick | Cancelled(ctxError: Error)

  /**
   * The outcome after `attempts` calls of `f`: returned with a result and an error, or still
   * waiting for a signal when the schedule runs out.
   */
  datatype Outcome<T> = Returned(result: T, err: Option<Error>, attempts: nat) | Waiting(attempts: nat)

  /** The waiting loop, after `k` calls of `f` of which the last gave `last`. */
  function Retry<T>(f: nat -> (T, Option<Error>), schedule: seq<Signal>, k: nat, last: (T, Option<Error>)): (r: Outcome<T>)
    ensures r.attempts >= k
    decreases |schedule|
  {
    if schedule == [] then Waiting(k)
    else match schedule[0]
      case Tick =>
        var next := f(k);
        if next.1.None? then Returned(next.0, None, k + 1)
        else Retry(f, schedule[1..], k + 1, next)
      case Cancelled(ctxError) => Returned(last.0, Join(Some(ctxError), last.1), k)
  }

  /** GetWithAttempts, as a function of the attempts' answers and the order of signals. */
  function GetWithAttemptsSpec<T>(f: nat -> (T, Option<Error>), schedule: seq<Signal>): (r: Outcome<T>)
    ensures f(0).1.None? ==> r == Returned(f(0).0, None, 1)
    ensures r.attempts >= 1
  {
    var first := f(0);
    if first.1.None? then Returned(first.0, None, 1) else Retry(f, schedule, 1, first)
  }

  function Ticks(schedule: seq<Signal>): nat {
    if schedule == [] || !schedule[0].Tick? then 0 else 1 + Ticks(schedule[1..])
  }

  /**
   * What the waiting loop promises: `f` is called once per tick until it succeeds; a success
   * returns that attempt's result and no error; a cancellation returns the last attempt's
   * result with the context error joined to the last error.
   */
  lemma {:induction false} RetryProperties<T>(f: nat -> (T, Option<Error>), schedule: seq<Signal>, k: nat, last: (T, Option<Error>))
    requires k >= 1 && last == f(k - 1) && last.1.Some?
    requires forall j :: 0 <= j < k ==> f(j).1.Some?
    ensures var r := Retry(f, schedule, k, last);
      (forall j :: 0 <= j < r.attempts - 1 ==> f(j).1.Some?)
      && r.attempts <= k + Ticks(schedule)
      && (r.Waiting? ==> r.attempts == k + |schedule| && f(r.attempts - 1).1.Some?)
      && (r.Returned? && r.err.None? ==> (r.result, r.err) == f(r.attempts - 1))
      && (r.Returned? && r.err.Some? ==>
            r.attempts == k + Ticks(schedule) && r.result == f(r.attempts - 1).0
            && f(r.attempts - 1).1.Some?
            && Ticks(schedule) < |schedule| && schedule[Ticks(schedule)].Cancelled?
            && r.err == Join(Some(schedule[Ticks(schedule)].ctxError), f(r.attempts - 1).1))
    decreases |schedule|
  {
    if schedule != [] && schedule[0].Tick? {
      var next := f(k);
      if next.1.Some? {
        RetryProperties(f, schedule[1..], k + 1, next);
      }
    }
  }

  /** The same promises for the whole of GetWithAttempts, first attempt included. */
  lemma GetWithAttemptsProperties<T>(f: nat -> (T, Option<Error>), schedule: seq<Signal>)
    ensures var r := GetWithAttemptsSpec(f, schedule);
      (forall j :: 0 <= j < r.attempts - 1 ==> f(j).1.Some?)
      && (r.Returned? && r.err.None? ==> (r.result, r.err) == f(r.attempts - 1))
      && (r.Returned? && r.err.Some? ==>
            r.attempts == 1 + Ticks(schedule) && r.result == f(r.attempts - 1).0
            && Ticks(schedule) < |schedule| && schedule[Ticks(schedule)].Cancelled?
            && r.err == Join(Some(schedule[Ticks(schedule)].ctxError), f(r.attempts - 1).1))
  {
    if f(0).1.Some? {
      RetryProperties(f, schedule, 1, f(0));
    }
  }

  /** try.GetWithAttempts. */
  method GetWithAttempts<T>(f: nat -> (T, Option<Error>), schedule: seq<Signal>) returns (r: Outcome<T>)
    ensures r == GetWithAttemptsSpec(f, schedule)
  {
    var result, err := f(0).0, f(0).1;
    if err.None? {
      return Returned(result, err, 1);
    }
    var attempts, i := 1, 0;
    while i < |schedule|
      invariant 0 <= i <= |schedule|
      invariant attempts == 1 + i && (result, err) == f(attempts - 1) && err.Some?
      invariant Retry(f, schedule[i..], attempts, (result, err)) == GetWithAttemptsSpec(f, schedule)
      decreases |schedule| - i
    {
      match schedule[i] {
        case Tick =>
          result, err := f(attempts).0, f(attempts).1;
          attempts := attempts + 1;
          if err.None? {
            return Returned(result, err, attempts);
          }
        case Cancelled(ctxError) =>
          err := Join(Some(ctxError), err);
          return Returned(result, err, attempts);
      }
      i := i + 1;
    }
    return Waiting(attempts);
  }

  /** try.DoWithAttempts: GetWithAttempts over an `f` without a result, keeping only the error. */
  method DoWithAttempts(f: nat -> Option<Error>, schedule: seq<Signal>) returns (err: Option<Error>, returned: bool)
    ensures var r := GetWithAttemptsSpec((k: nat) => ((), f(k)), schedule);
      returned == r.Returned? && (returned ==> err == r.err)
  {
    var suitableFunc := (k: nat) => ((), f(k));
    var r := GetWithAttempts(suitableFunc, schedule);
    returned := r.Returned?;
    err := if r.Returned? then r.err else None;
  }
}
