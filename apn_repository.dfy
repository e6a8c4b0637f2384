/**
 * The device-token side of the push database (internal/reminder/apn/postgresqlrepository.go):
 * the `$1, $2, …` placeholder list, the argument list, the guarded DELETE, and the rows read
 * by the notifications query.
 */
module ApnRepository {
  import opened Wrappers
  import opened Errors
  import opened Text
  import ApnSender

  /** The list of `n` placeholders "$1, $2, …, $n"; empty for none. */
  function Placeholders(n: nat): string {
    if n == 0 then ""
    else if n == 1 then "$" + Itoa(1)
    else Placeholders(n - 1) + ", $" + Itoa(n)
  }

  /** makePlaceholder(n) holds exactly `n` parameter markers. */
  lemma {:induction false} PlaceholdersCount(n: nat)
    ensures Count(Placeholders(n), '$') == n
  {
    if n == 1 {
      CountNatToString(1, '$');
      CountAppend("$", Itoa(1), '$');
    } else if n > 1 {
      PlaceholdersCount(n - 1);
      CountNatToString(n, '$');
      CountAppend(Placeholders(n - 1), ", $", '$');
      CountAppend(Placeholders(n - 1) + ", $", Itoa(n), '$');
    }
  }

  /** For n >= 1 the list starts with "$1" and ends with ", $n" (for n >= 2). */
  lemma PlaceholdersShape(n: nat)
    ensures n == 0 <==> Placeholders(n) == ""
    ensures n >= 1 ==> HasPrefix(Placeholders(n), "$1")
    ensures n >= 2 ==> Placeholders(n) == Placeholders(n - 1) + ", $" + Itoa(n)
  {
    if n >= 1 {
      PlaceholdersPrefix(n);
    }
  }

  lemma {:induction false} PlaceholdersPrefix(n: nat)
    requires n >= 1
    ensures |Placeholders(n)| >= 2 && Placeholders(n)[..2] == "$1"
  {
    if n == 1 {
      assert Itoa(1) == "1";
    } else {
      PlaceholdersPrefix(n - 1);
      var p := Placeholders(n - 1);
      assert Placeholders(n) == p + (", $" + Itoa(n));
    }
  }

  /** makePlaceholder: a builder that writes "$1", then ", $k" for each further index. */
  method MakePlaceholder(paramsCount: nat) returns (s: string)
    ensures s == Placeholders(paramsCount)
  {
    if paramsCount == 0 {
      return "";
    }
    var builder := "$";
    builder := builder + Itoa(1);
    var i := 1;
    while i < paramsCount
      invariant 1 <= i <= paramsCount
      invariant builder == Placeholders(i)
    {
      var index := i + 1;
      builder := builder + ", $";
      builder := builder + Itoa(index);
      i := i + 1;
    }
    return builder;
  }

  /** A query argument; the modelled code passes only strings. */
  datatype Arg = StringArg(value: string)

  /** makeArgs: the tokens as query arguments, in the same order. */
  method MakeArgs(input: seq<string>) returns (result: seq<Arg>)
    ensures |result| == |input|
    ensures forall i :: 0 <= i < |input| ==> result[i] == StringArg(input[i])
  {
    var args := new Arg[|input|](_ => StringArg(""));
    var i := 0;
    while i < |input|
      invariant 0 <= i <= |input|
      invariant forall j :: 0 <= j < i ==> args[j] == StringArg(input[j])
    {
      args[i] := StringArg(input[i]);
      i := i + 1;
    }
    return args[..];
  }

  const DeleteHead: string := "\n\t\tDELETE FROM ios_devices\n\t\tWHERE token IN ("
  const DeleteTail: string := "); \n\t"

  /** A statement run on the pool: its SQL text and its arguments. */
  datatype Statement = Statement(sql: string, args: seq<Arg>)

  datatype RemoveOutcome = RemoveOutcome(err: Option<Error>, executed: seq<Statement>)

  /**
   * removeDeviceTokens: nothing to delete runs no statement and succeeds; otherwise one
   * DELETE with a placeholder per token, whose database error is wrapped.
   */
  method RemoveDeviceTokens(tokens: seq<string>, exec: Statement -> Option<Error>) returns (r: RemoveOutcome)
    ensures tokens == [] ==> r == RemoveOutcome(None, [])
    ensures tokens != [] ==>
      |r.executed| == 1
      && r.executed[0].sql == DeleteHead + Placeholders(|tokens|) + DeleteTail
      && |r.executed[0].args| == |tokens|
      && (forall i :: 0 <= i < |tokens| ==> r.executed[0].args[i] == StringArg(tokens[i]))
      && r.err == HandleQueryErr(exec(r.executed[0]))
  {
    if |tokens| == 0 {
      return RemoveOutcome(None, []);
    }
    var placeholder := MakePlaceholder(|tokens|);
    var args := MakeArgs(tokens);
    var sql := DeleteHead + placeholder + DeleteTail;
    var statement := Statement(sql, args);
    r := RemoveOutcome(HandleQueryErr(exec(statement)), [statement]);
  }

  /** What rows.Scan gave for one row. */
  datatype Row = Scanned(data: ApnSender.NotificationData) | ScanFailed(err: Error)

  /** The rows handed on before the first row that fails to scan, and that failure's error. */
  function ScannedPrefix(rows: seq<Row>): (r: (seq<ApnSender.NotificationData>, Option<Error>))
    ensures |r.0| <= |rows|
    ensures forall i :: 0 <= i < |r.0| ==> rows[i] == Scanned(r.0[i])
    ensures r.1.None? <==> forall i :: 0 <= i < |rows| ==> rows[i].Scanned?
    ensures r.1.Some? ==> rows[|r.0|].ScanFailed? && r.1 == Some(rows[|r.0|].err)
  {
    if rows == [] then ([], None)
    else match rows[0]
      case ScanFailed(e) => ([], Some(e))
      case Scanned(d) =>
        var rest := ScannedPrefix(rows[1..]);
        ([d] + rest.0, rest.1)
  }

  /**
   * notifications: a failed query sends nothing; otherwise rows are sent in scan order and the
   * first scan error stops the reading. Both errors are wrapped.
   */
  method Notifications(queryError: Option<Error>, rows: seq<Row>) returns (sent: seq<ApnSender.NotificationData>, err: Option<Error>)
    ensures queryError.Some? ==> sent == [] && err == HandleQueryErr(queryError)
    ensures queryError.None? ==> sent == ScannedPrefix(rows).0 && err == HandleQueryErr(ScannedPrefix(rows).1)
  {
    sent := [];
    if queryError.Some? {
      return sent, HandleQueryErr(queryError);
    }
    var i := 0;
    assert rows[0..] == rows;
    while i < |rows|
      invariant 0 <= i <= |rows|
      invariant forall j :: 0 <= j < i ==> rows[j].Scanned?
      invariant sent + ScannedPrefix(rows[i..]).0 == ScannedPrefix(rows).0
      invariant ScannedPrefix(rows[i..]).1 == ScannedPrefix(rows).1
    {
      match rows[i] {
        case ScanFailed(e) =>
          return sent, HandleQueryErr(Some(e));
        case Scanned(data) =>
          assert rows[i..][0] == rows[i];
          assert rows[i..][1..] == rows[i + 1..];
          assert ScannedPrefix(rows[i..]).0 == [data] + ScannedPrefix(rows[i + 1..]).0;
          assert (sent + [data]) + ScannedPrefix(rows[i + 1..]).0 == sent + ScannedPrefix(rows[i..]).0;
          sent := sent + [data];
      }
      i := i + 1;
    }
    return sent, None;
  }
}
