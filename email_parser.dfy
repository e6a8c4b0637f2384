/** Reading the name of an email address (internal/id/usr/emailparser.go). */
module EmailParser {
  import opened Errors
  import opened Text

  /** A parsed address: the display name and the bare address. */
  datatype Address = Address(name: string, address: string)

  /** parseName: the text before the first "@"; without one the address is invalid. */
  function ParseName(email: string): (r: Result<string>)
    ensures '@' !in email <==> r == Fail(E(InvalidEmail))
    ensures r.Ok? ==> '@' !in r.value
    ensures r.Ok? ==> |r.value| < |email| && email[..|r.value|] == r.value && email[|r.value|] == '@'
  {
    var at := IndexOf(email, '@');
    if at == -1 then Fail(E(InvalidEmail)) else Ok(email[..at])
  }

  /**
   * parseAddress, given what `mail.ParseAddress` returned: a display name is kept; an
   * empty one is filled from the address.
   */
  function ParseAddress(parsed: Result<Address>): (r: Result<Address>)
    ensures parsed.Fail? ==> r == parsed
    ensures parsed.Ok? && parsed.value.name != "" ==> r == parsed
    ensures parsed.Ok? && parsed.value.name == "" && ParseName(parsed.value.address).Fail? ==>
      r == Fail(E(InvalidEmail))
    ensures parsed.Ok? && parsed.value.name == "" && ParseName(parsed.value.address).Ok? ==>
      r == Ok(parsed.value.(name := ParseName(parsed.value.address).value))
  {
    match parsed
    case Fail(_) => parsed
    case Ok(a) =>
      if a.name != "" then parsed
      else match ParseName(a.address)
        case Fail(err) => Fail(err)
        case Ok(name) => Ok(a.(name := name))
  }

  /** The name of "local@domain" is "local" whenever the local part holds no "@". */
  lemma ParseNameOfAddress(local: string, domain: string)
    requires '@' !in local
    ensures ParseName(local + "@" + domain) == Ok(local)
  {
    var s := local + "@" + domain;
    assert s[|local|] == '@';
    assert s[..|local|] == local;
    assert forall k :: 0 <= k < |local| ==> s[k] == local[k];
  }
}
