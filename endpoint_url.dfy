/** Host-name handling for cookies and links (internal/shared/httpmux/endpointurl.go). */
module EndpointUrl {
  import opened Text

  /** A host with more labels than this has a subdomain. */
  const DomainPartsWithoutSubdomain: nat := 2

  /** RemoveSubdomain: a host of three or more dot-separated labels loses its first label and that dot. */
  function RemoveSubdomain(host: string): (r: string)
  {
    var parts := Split(host, '.');
    if |parts| > DomainPartsWithoutSubdomain then Join(parts[1..], '.') else host
  }

  /** A text without the separator splits into itself. */
  lemma {:induction false} SplitWithoutSep(s: string, sep: char)
    requires sep !in s
    ensures Split(s, sep) == [s]
  {
    if s != [] {
      SplitWithoutSep(s[1..], sep);
      assert [s[0]] + s[1..] == s;
    }
  }

  /** Splitting `a + sep + b`, where `a` holds no separator, gives `a` then the parts of `b`. */
  lemma {:induction false} SplitAfterFirst(a: string, b: string, sep: char)
    requires sep !in a
    ensures Split(a + [sep] + b, sep) == [a] + Split(b, sep)
  {
    if a == [] {
      assert a + [sep] + b == [sep] + b;
      assert ([sep] + b)[1..] == b;
    } else {
      var s := a + [sep] + b;
      assert s[0] == a[0] && s[1..] == a[1..] + [sep] + b;
      SplitAfterFirst(a[1..], b, sep);
      assert [a[0]] + a[1..] == a;
    }
  }

  /** Joining parts that hold no separator and splitting again gives the parts back. */
  lemma {:induction false} SplitJoin(parts: seq<string>, sep: char)
    requires |parts| >= 1
    requires forall i :: 0 <= i < |parts| ==> sep !in parts[i]
    ensures Split(Join(parts, sep), sep) == parts
    decreases |parts|
  {
    if |parts| == 1 {
      SplitWithoutSep(parts[0], sep);
    } else {
      SplitJoin(parts[1..], sep);
      SplitAfterFirst(parts[0], Join(parts[1..], sep), sep);
      assert [parts[0]] + parts[1..] == parts;
    }
  }

  /**
   * The partner of RemoveSubdomain: with at most two labels the host is kept; with more,
   * the host is the first label, a dot and the result, and the result has one label fewer.
   * Either way the result is a suffix of the host.
   */
  lemma RemoveSubdomainShape(host: string)
    ensures var parts := Split(host, '.');
      var r := RemoveSubdomain(host);
      (|parts| <= 2 ==> r == host)
      && (|parts| > 2 ==> host == parts[0] + "." + r && |Split(r, '.')| == |parts| - 1 && Split(r, '.') == parts[1..])
      && |r| <= |host| && host[|host| - |r|..] == r
  {
    var parts := Split(host, '.');
    JoinSplit(host, '.');
    if |parts| > 2 {
      var r := Join(parts[1..], '.');
      assert Join(parts, '.') == parts[0] + ['.'] + r;
      SplitJoin(parts[1..], '.');
      assert host == parts[0] + "." + r;
      assert host[|host| - |r|..] == r;
    }
  }
}
