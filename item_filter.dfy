/** Query filters of the item list (internal/reminder/item/filter.go). */
module ItemFilter {
  import opened Wrappers
  import opened Text
  import opened Rfc3339
  import opened GenUuid

  /** A query parameter, as the filter hands it to the driver. */
  datatype Param = TimeParam(t: Instant) | UuidParam(id: Uuid) | StringParam(s: string) | BoolParam(b: bool)

  /** The four filter constructors. */
  datatype Filter = ByDateBefore(date: Instant) | ByStorageId(id: Uuid) | ByName(name: string) | ByOpenedStatus(isOpened: bool)

  /** The condition of a filter, up to its placeholder. */
  function Condition(f: Filter): (c: string)
  {
    match f
    case ByDateBefore(_) => "AND expiration_date <= "
    case ByStorageId(_) => "AND i.storage_id = "
    case ByName(_) => "AND ii.name ILIKE "
    case ByOpenedStatus(_) => "AND ii.is_opened = "
  }

  lemma ConditionHasNoPlaceholder(f: Filter)
    ensures forall i :: 0 <= i < |Condition(f)| ==> Condition(f)[i] != '$'
  {
  }

  /** The SQL fragment of a filter: its condition and the "$" of its placeholder. */
  function FilterSql(f: Filter): (sql: string)
    ensures |sql| > 0 && sql[|sql| - 1] == '$'
  {
    Condition(f) + "$"
  }

  /** Each fragment holds exactly one "$", the last character. */
  lemma FilterSqlPlaceholder(f: Filter)
    ensures Count(FilterSql(f), '$') == 1
  {
    ConditionHasNoPlaceholder(f);
    CountAbsent(Condition(f), '$');
    CountAppend(Condition(f), "$", '$');
  }

  /** The parameter of a filter: the value it was built with. */
  function FilterParam(f: Filter): (p: Param)
    ensures f.ByDateBefore? ==> p == TimeParam(f.date)
    ensures f.ByStorageId? ==> p == UuidParam(f.id)
    ensures f.ByName? ==> p == StringParam(f.name)
    ensures f.ByOpenedStatus? ==> p == BoolParam(f.isOpened)
  {
    match f
    case ByDateBefore(d) => TimeParam(d)
    case ByStorageId(id) => UuidParam(id)
    case ByName(n) => StringParam(n)
    case ByOpenedStatus(o) => BoolParam(o)
  }

  /** Reading a fragment and its parameter back: the filter they were built from, if any. */
  function FilterOf(sql: string, p: Param): Option<Filter> {
    match p
    case TimeParam(t) => if sql == "AND expiration_date <= $" then Some(ByDateBefore(t)) else None
    case UuidParam(id) => if sql == "AND i.storage_id = $" then Some(ByStorageId(id)) else None
    case StringParam(n) => if sql == "AND ii.name ILIKE $" then Some(ByName(n)) else None
    case BoolParam(b) => if sql == "AND ii.is_opened = $" then Some(ByOpenedStatus(b)) else None
  }

  /** A filter's fragment and parameter identify it: nothing of the filter is lost. */
  lemma FilterRoundTrip(f: Filter)
    ensures FilterOf(FilterSql(f), FilterParam(f)) == Some(f)
  {
  }

  /** The fragments of the filters, in filter order. */
  function Fragments(filters: seq<Filter>): (frags: seq<string>)
    ensures |frags| == |filters|
    ensures forall k :: 0 <= k < |filters| ==> frags[k] == FilterSql(filters[k])
  {
    seq(|filters|, k requires 0 <= k < |filters| => FilterSql(filters[k]))
  }

  /** Each fragment followed by its index: the first `next`, each following one more. */
  function Numbered(next: int, frags: seq<string>): string
    decreases |frags|
  {
    if frags == [] then "" else frags[0] + Itoa(next) + Numbered(next + 1, frags[1..])
  }

  /** Appending a fragment appends it numbered `next + |frags|`. */
  lemma {:induction false} NumberedAppend(next: int, frags: seq<string>, s: string)
    ensures Numbered(next, frags + [s]) == Numbered(next, frags) + s + Itoa(next + |frags|)
    decreases |frags|
  {
    if frags == [] {
      assert frags + [s] == [s];
      assert [s][1..] == [];
    } else {
      var whole := frags + [s];
      assert whole[0] == frags[0];
      assert whole[1..] == frags[1..] + [s];
      var head := frags[0] + Itoa(next);
      var rest := Numbered(next + 1, frags[1..]);
      var k := next + |frags|;
      assert next + 1 + |frags[1..]| == k;
      NumberedAppend(next + 1, frags[1..], s);
      AppendAssoc(head, rest + s, Itoa(k));
      AppendAssoc(head, rest, s);
    }
  }

  lemma NumberedStep(next: int, frags: seq<string>, i: nat)
    requires i < |frags|
    ensures Numbered(next, frags[..i + 1]) == Numbered(next, frags[..i]) + frags[i] + Itoa(next + i)
  {
    NumberedAppend(next, frags[..i], frags[i]);
    assert frags[..i + 1] == frags[..i] + [frags[i]];
  }

  /** There are exactly as many "$" as fragments when each fragment holds one. */
  lemma {:induction false} NumberedPlaceholders(next: int, frags: seq<string>)
    requires forall k :: 0 <= k < |frags| ==> Count(frags[k], '$') == 1
    ensures Count(Numbered(next, frags), '$') == |frags|
    decreases |frags|
  {
    if frags != [] {
      NumberedPlaceholders(next + 1, frags[1..]);
      CountItoa(next, '$');
      CountAppend(frags[0], Itoa(next), '$');
      CountAppend(frags[0] + Itoa(next), Numbered(next + 1, frags[1..]), '$');
    }
  }

  /** The filtering SQL has one placeholder per filter. */
  lemma FilteringSqlPlaceholders(next: int, filters: seq<Filter>)
    ensures Count(Numbered(next, Fragments(filters)), '$') == |filters|
  {
    forall k | 0 <= k < |filters| {
      FilterSqlPlaceholder(filters[k]);
    }
    NumberedPlaceholders(next, Fragments(filters));
  }

  /**
   * makeQueryFilteringPath: the fragments numbered from `nextParamIndex`, and the
   * parameters in filter order.
   */
  method MakeQueryFilteringPath(nextParamIndex: int, filters: seq<Filter>) returns (sql: string, params: seq<Param>)
    ensures sql == Numbered(nextParamIndex, Fragments(filters))
    ensures |params| == |filters|
    ensures forall i :: 0 <= i < |filters| ==> params[i] == FilterParam(filters[i])
  {
    sql, params := "", [];
    var index := nextParamIndex;
    ghost var frags := Fragments(filters);
    for i := 0 to |filters|
      invariant index == nextParamIndex + i
      invariant sql == Numbered(nextParamIndex, frags[..i])
      invariant |params| == i
      invariant forall k :: 0 <= k < i ==> params[k] == FilterParam(filters[k])
    {
      var fragment, param := FilterSql(filters[i]), FilterParam(filters[i]);
      NumberedStep(nextParamIndex, frags, i);
      ParamsStep(filters, params, i);
      sql := sql + fragment + Itoa(index);
      params := params + [param];
      index := index + 1;
    }
    assert frags[..|filters|] == frags;
  }

  lemma ParamsStep(filters: seq<Filter>, params: seq<Param>, i: nat)
    requires i < |filters| && |params| == i
    requires forall k :: 0 <= k < i ==> params[k] == FilterParam(filters[k])
    ensures forall k :: 0 <= k < i + 1 ==> (params + [FilterParam(filters[i])])[k] == FilterParam(filters[k])
  {
  }

  /** No filters: no SQL and no parameters. */
  lemma NoFilters(next: int)
    ensures Numbered(next, Fragments([])) == ""
  {
  }
}
