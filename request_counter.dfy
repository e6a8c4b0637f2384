/**
 * The request counter's labels (internal/shared/prometheusexporter/requestcounter.go):
 * every handled request increments the `http_requests_total` counter under an endpoint,
 * a status code and an internal error code label.
 */
module RequestCounter {
  import opened Text

  const NotAllowedEndpoint: string := "NOT ALLOWED"
  const NoInternalCode: string := "n/a"
  const StatusMethodNotAllowed: int := 405

  datatype Labels = Labels(endpoint: string, code: string, internalErrorCode: string)

  /** requestedEndpoint: requests refused for their method share one label; others are "METHOD route". */
  function RequestedEndpoint(httpMethod: string, route: string, statusCode: int): (endpoint: string)
    ensures statusCode == StatusMethodNotAllowed ==> endpoint == NotAllowedEndpoint
    ensures statusCode != StatusMethodNotAllowed ==>
      |endpoint| == |httpMethod| + 1 + |route| && endpoint[..|httpMethod|] == httpMethod
      && endpoint[|httpMethod|] == ' ' && endpoint[|httpMethod| + 1..] == route
  {
    if statusCode == StatusMethodNotAllowed then NotAllowedEndpoint
    else
      var e := httpMethod + " " + route;
      assert e[..|httpMethod|] == httpMethod;
      assert e[|httpMethod| + 1..] == route;
      e
  }

  /** The internal code's label: "n/a" for none, its decimal form otherwise. */
  function InternalCodeLabel(internalErrorCode: int): (text: string)
    ensures internalErrorCode == 0 <==> text == NoInternalCode
  {
    if internalErrorCode == 0 then NoInternalCode
    else
      var text := Itoa(internalErrorCode);
      ItoaRoundTrip(internalErrorCode);
      assert !IsDigit(NoInternalCode[0]) && NoInternalCode[0] != '-';
      text
  }

  /** The three labels of one request. */
  function LabelsOf(route: string, httpMethod: string, statusCode: int, internalErrorCode: int): Labels {
    Labels(RequestedEndpoint(httpMethod, route, statusCode), Itoa(statusCode), InternalCodeLabel(internalErrorCode))
  }

  /** Distinct statuses and distinct internal codes get distinct labels, and each label reads back as its code. */
  lemma {:induction false} LabelsDistinguishCodes(route: string, httpMethod: string, s1: int, s2: int, c1: int, c2: int)
    ensures var l1 := LabelsOf(route, httpMethod, s1, c1);
      var l2 := LabelsOf(route, httpMethod, s2, c2);
      (l1.code == l2.code <==> s1 == s2) && (l1.internalErrorCode == l2.internalErrorCode <==> c1 == c2)
    ensures ParseInt(Itoa(s1)) == s1
  {
    ItoaRoundTrip(s1);
    if Itoa(s1) == Itoa(s2) {
      ItoaInjective(s1, s2);
    }
    if c1 != 0 && c2 != 0 && Itoa(c1) == Itoa(c2) {
      ItoaInjective(c1, c2);
    }
  }

  /** The counter vector: a count per label combination, 0 for one never seen. */
  class Counter {
    var counts: map<Labels, nat>

    constructor()
      ensures counts == map[]
    {
      counts := map[];
    }

    function Count(l: Labels): nat
      reads this
    {
      if l in counts then counts[l] else 0
    }

    /** Increment: exactly the request's label combination goes up by one. */
    method Increment(route: string, httpMethod: string, statusCode: int, internalErrorCode: int)
      modifies this
      ensures var l := LabelsOf(route, httpMethod, statusCode, internalErrorCode);
        counts == old(counts)[l := old(Count(l)) + 1]
      ensures forall l :: l != LabelsOf(route, httpMethod, statusCode, internalErrorCode) ==> Count(l) == old(Count(l))
    {
      var errorCode := NoInternalCode;
      if internalErrorCode != 0 {
        errorCode := Itoa(internalErrorCode);
      }
      var endpoint := RequestedEndpoint(httpMethod, route, statusCode);
      var l := Labels(endpoint, Itoa(statusCode), errorCode);
      counts := counts[l := Count(l) + 1];
    }
  }
}
