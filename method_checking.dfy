/** Refusing requests by HTTP method (internal/shared/httpmux/methodckecingmiddleware.go). */
module MethodChecking {
  import opened Wrappers
  import opened Errors

  /** The nine methods net/http names. */
  const ValidMethods: seq<string> := ["GET", "HEAD", "POST", "PUT", "PATCH", "DELETE", "CONNECT", "OPTIONS", "TRACE"]

  const AllowHeader: string := "Allow"

  const ErrInvalidMethod: Error := E(InvalidMethod)
  const ErrMethodNotAllowed: Error := E(MethodNotAllowed)
  const ErrNoMethodsAllowed: Error := E(Message("no http methods allowed"))

  function InvalidAllowedMethodError(m: string): Error {
    E(Message("allowed method \"" + m + "\" is invalid"))
  }

  /** isInvalid: a linear search of the valid methods. */
  method IsInvalid(m: string) returns (invalid: bool)
    ensures invalid <==> m !in ValidMethods
  {
    var i := 0;
    while i < |ValidMethods|
      invariant i <= |ValidMethods|
      invariant forall k :: 0 <= k < i ==> ValidMethods[k] != m
    {
      if m == ValidMethods[i] {
        return false;
      }
      i := i + 1;
    }
    return true;
  }

  /** Entry `i` is the first allowed method that is not valid. */
  predicate FirstInvalidAt(allowed: seq<string>, i: int) {
    0 <= i < |allowed| && allowed[i] !in ValidMethods && forall k :: 0 <= k < i ==> allowed[k] in ValidMethods
  }

  /** allowedMethods.containsInvalid: the first entry that is no valid method is reported. */
  method ContainsInvalid(allowed: seq<string>) returns (err: Option<Error>)
    ensures err.None? <==> forall k :: 0 <= k < |allowed| ==> allowed[k] in ValidMethods
    ensures err.Some? ==> exists i :: FirstInvalidAt(allowed, i) && err.value == InvalidAllowedMethodError(allowed[i])
  {
    var i := 0;
    while i < |allowed|
      invariant i <= |allowed|
      invariant forall k :: 0 <= k < i ==> allowed[k] in ValidMethods
    {
      var invalid := IsInvalid(allowed[i]);
      if invalid {
        return Some(InvalidAllowedMethodError(allowed[i]));
      }
      i := i + 1;
    }
    return None;
  }

  /** allowedMethods.containsAskedMethod */
  method ContainsAskedMethod(allowed: seq<string>, asked: string) returns (found: bool)
    ensures found <==> asked in allowed
  {
    var i := 0;
    while i < |allowed|
      invariant i <= |allowed|
      invariant asked !in allowed[..i]
    {
      if allowed[i] == asked {
        return true;
      }
      assert allowed[..i + 1] == allowed[..i] + [allowed[i]];
      i := i + 1;
    }
    assert allowed[..i] == allowed;
    return false;
  }

  /** allowedMethods.String: `strings.Join(m, ", ")`. */
  function AllowedString(methods: seq<string>): string {
    if methods == [] then ""
    else if |methods| == 1 then methods[0]
    else methods[0] + ", " + AllowedString(methods[1..])
  }

  /** What the middleware did: its error, the Allow header it added, and whether it ran the next handler. */
  datatype Checked = Checked(err: Option<Error>, allowHeader: Option<string>, calledNext: bool)

  /**
   * httpMethodCheckingMiddleware, for one request: an empty allowed list, an invalid
   * entry in it, an invalid request method and a method not allowed are refused, checked
   * in that order; otherwise the next handler runs and its error is returned.
   */
  method CheckMethod(allowed: seq<string>, requested: string, next: Option<Error>) returns (c: Checked)
    ensures allowed == [] ==> c == Checked(Some(ErrNoMethodsAllowed), None, false)
    ensures (allowed != [] && exists i :: 0 <= i < |allowed| && allowed[i] !in ValidMethods) ==>
      exists i :: FirstInvalidAt(allowed, i) && c == Checked(Some(InvalidAllowedMethodError(allowed[i])), None, false)
    ensures (allowed != [] && (forall i :: 0 <= i < |allowed| ==> allowed[i] in ValidMethods)
             && requested !in ValidMethods) ==> c == Checked(Some(ErrInvalidMethod), None, false)
    ensures (allowed != [] && (forall i :: 0 <= i < |allowed| ==> allowed[i] in ValidMethods)
             && requested in ValidMethods && requested !in allowed) ==>
      c == Checked(Some(ErrMethodNotAllowed), Some(AllowedString(allowed)), false)
    ensures (allowed != [] && requested in allowed && (forall i :: 0 <= i < |allowed| ==> allowed[i] in ValidMethods)) ==>
      c == Checked(next, None, true)
    ensures c.calledNext <==> allowed != [] && requested in allowed && forall i :: 0 <= i < |allowed| ==> allowed[i] in ValidMethods
  {
    if |allowed| == 0 {
      return Checked(Some(ErrNoMethodsAllowed), None, false);
    }
    var err := ContainsInvalid(allowed);
    if err.Some? {
      return Checked(err, None, false);
    }
    var invalid := IsInvalid(requested);
    if invalid {
      return Checked(Some(ErrInvalidMethod), None, false);
    }
    var isAllowed := ContainsAskedMethod(allowed, requested);
    if !isAllowed {
      return Checked(Some(ErrMethodNotAllowed), Some(AllowedString(allowed)), false);
    }
    return Checked(next, None, true);
  }

  /** The Allow header lists the allowed methods in order, separated by ", ". */
  lemma {:induction false} AllowedStringOfTwo(a: string, b: string, rest: seq<string>)
    ensures AllowedString([a]) == a
    ensures AllowedString([a, b] + rest) == a + ", " + AllowedString([b] + rest)
  {
    assert ([a, b] + rest)[1..] == [b] + rest;
  }
}
