/** The `/analytics` REST callback's query builder: a WHERE clause that
    starts as `1=1` and gains one condition per supplied filter, with the
    matching `$wpdb->prepare` argument for each. */
module Analytics {
  import opened Common

  datatype SqlArg = IntArg(n: nat) | TextArg(s: string)

  /** The placeholder letter `$wpdb->prepare` expects for an argument. */
  function Kind(a: SqlArg): char
  {
    match a
    case IntArg(_) => 'd'
    case TextArg(_) => 's'
  }

  function Kinds(args: seq<SqlArg>): (r: seq<char>)
    ensures |r| == |args|
    ensures forall i :: 0 <= i < |args| ==> r[i] == Kind(args[i])
  {
    if args == [] then [] else [Kind(args[0])] + Kinds(args[1..])
  }

  /** The conversion letters of the `%d`, `%s` and `%f` placeholders of a
      query, left to right. This is a simplification of `$wpdb->prepare`:
      it does not treat `%%` as an escaped percent sign (so `%%d` reads as a
      placeholder here) and does not know `%F`, `%i` or numbered placeholders.
      Every fixed text of the analytics query is free of `%`, so none of these
      forms occurs in the statements the callback builds. */
  function Placeholders(q: string): seq<char>
    decreases |q|
  {
    if |q| < 2 then []
    else if q[0] == '%' && q[1] in {'d', 's', 'f'} then [q[1]] + Placeholders(q[2..])
    else Placeholders(q[1..])
  }

  /** Text without a `%` holds no placeholder. */
  lemma {:induction false} NoPercentNoPlaceholders(q: string)
    requires '%' !in q
    ensures Placeholders(q) == []
    decreases |q|
  {
    if |q| >= 2 {
      assert q[0] != '%';
      NoPercentNoPlaceholders(q[1..]);
    }
  }

  /** Placeholders of a concatenation, when the left part does not end in a
      lone `%` that the right part could complete. */
  lemma {:induction false} PlaceholdersConcat(a: string, b: string)
    requires a == [] || a[|a| - 1] != '%'
    ensures Placeholders(a + b) == Placeholders(a) + Placeholders(b)
    decreases |a|
  {
    var ab := a + b;
    if a == [] {
      assert ab == b;
    } else if |a| == 1 {
      assert ab[0] == a[0] != '%';
      assert ab[1..] == b;
    } else {
      assert ab[0] == a[0] && ab[1] == a[1];
      if a[0] == '%' && a[1] in {'d', 's', 'f'} {
        assert ab[2..] == a[2..] + b;
        PlaceholdersConcat(a[2..], b);
      } else {
        assert ab[1..] == a[1..] + b;
        PlaceholdersConcat(a[1..], b);
      }
    }
  }

  /** The three conditions the callback can add, each followed in the query
      by the placeholder of its argument. */
  const ProgramCondition: string := " AND program_id="
  const FromCondition: string := " AND snapshot_date >= "
  const ToCondition: string := " AND snapshot_date <= "

  /** A condition of the WHERE clause and the argument that fills it. */
  datatype Filter = Filter(condition: string, arg: SqlArg)
  {
    /** The condition as it goes into the query: its text, then `%d` or `%s`. */
    function Clause(): string
    {
      condition + ['%', Kind(arg)]
    }
  }

  /** The filters a request supplies, in the order the callback tests them;
      a program id of 0 and a falsy date are not supplied. */
  function Supplied(programId: nat, from: string, to: string): seq<Filter>
  {
    (if programId != 0 then [Filter(ProgramCondition, IntArg(programId))] else [])
    + (if Truthy(from) then [Filter(FromCondition, TextArg(from))] else [])
    + (if Truthy(to) then [Filter(ToCondition, TextArg(to))] else [])
  }

  function WhereOf(fs: seq<Filter>): string
    decreases |fs|
  {
    if fs == [] then "1=1" else WhereOf(fs[..|fs| - 1]) + fs[|fs| - 1].Clause()
  }

  function ArgsOf(fs: seq<Filter>): seq<SqlArg>
    decreases |fs|
  {
    if fs == [] then [] else ArgsOf(fs[..|fs| - 1]) + [fs[|fs| - 1].arg]
  }

  lemma WhereOfSnoc(fs: seq<Filter>, f: Filter)
    ensures WhereOf(fs + [f]) == WhereOf(fs) + f.Clause()
    ensures ArgsOf(fs + [f]) == ArgsOf(fs) + [f.arg]
  {
    assert (fs + [f])[..|fs|] == fs;
  }

  /** A condition text without `%`: its clause then carries exactly one placeholder. */
  ghost predicate Balanced(f: Filter)
  {
    '%' !in f.condition
  }

  lemma ClausePlaceholders(f: Filter)
    requires Balanced(f)
    ensures Placeholders(f.Clause()) == [Kind(f.arg)]
  {
    NoPercentNoPlaceholders(f.condition);
    PlaceholdersConcat(f.condition, ['%', Kind(f.arg)]);
  }

  lemma SuppliedBalanced(programId: nat, from: string, to: string)
    ensures forall f :: f in Supplied(programId, from, to) ==> Balanced(f)
  {
    assert '%' !in ProgramCondition && '%' !in FromCondition && '%' !in ToCondition;
  }

  /** Built from balanced filters, the WHERE clause has one placeholder per
      argument, each of that argument's kind, and does not end in `%`. */
  lemma {:induction false} WhereMatchesArgs(fs: seq<Filter>)
    requires forall f :: f in fs ==> Balanced(f)
    ensures Placeholders(WhereOf(fs)) == Kinds(ArgsOf(fs))
    ensures WhereOf(fs)[|WhereOf(fs)| - 1] != '%'
    decreases |fs|
  {
    if fs == [] {
      NoPercentNoPlaceholders("1=1");
    } else {
      var n := |fs| - 1;
      assert forall f :: f in fs[..n] ==> f in fs;
      WhereMatchesArgs(fs[..n]);
      assert fs[n] in fs;
      PlaceholdersConcat(WhereOf(fs[..n]), fs[n].Clause());
      ClausePlaceholders(fs[n]);
      var k := Kinds(ArgsOf(fs));
      assert k == Kinds(ArgsOf(fs[..n])) + [Kind(fs[n].arg)];
    }
  }

  /** Adding one filter's clause and argument keeps the clause and the
      arguments in step with the filters supplied so far. */
  lemma AppendFilter(fs: seq<Filter>, f: Filter, where: string, args: seq<SqlArg>)
    requires where == WhereOf(fs) && args == ArgsOf(fs)
    ensures where + f.Clause() == WhereOf(fs + [f])
    ensures args + [f.arg] == ArgsOf(fs + [f])
  {
    WhereOfSnoc(fs, f);
  }

  /** The clause texts the callback appends, one literal each. */
  lemma ClauseTexts(programId: nat, from: string, to: string)
    ensures Filter(ProgramCondition, IntArg(programId)).Clause() == " AND program_id=%d"
    ensures Filter(FromCondition, TextArg(from)).Clause() == " AND snapshot_date >= %s"
    ensures Filter(ToCondition, TextArg(to)).Clause() == " AND snapshot_date <= %s"
  {
  }

  /** Whatever the request supplies, the clause matches the arguments. */
  lemma SuppliedMatches(programId: nat, from: string, to: string)
    ensures Placeholders(WhereOf(Supplied(programId, from, to))) == Kinds(ArgsOf(Supplied(programId, from, to)))
  {
    SuppliedBalanced(programId, from, to);
    WhereMatchesArgs(Supplied(programId, from, to));
  }

  /** The clause and arguments of the supplied filters, written out as the
      callback appends them. */
  lemma SuppliedText(programId: nat, from: string, to: string)
    ensures WhereOf(Supplied(programId, from, to))
         == "1=1" + (if programId != 0 then " AND program_id=%d" else "")
                  + (if Truthy(from) then " AND snapshot_date >= %s" else "")
                  + (if Truthy(to) then " AND snapshot_date <= %s" else "")
    ensures ArgsOf(Supplied(programId, from, to))
         == (if programId != 0 then [IntArg(programId)] else [])
            + (if Truthy(from) then [TextArg(from)] else [])
            + (if Truthy(to) then [TextArg(to)] else [])
  {
    ClauseTexts(programId, from, to);
    var fs: seq<Filter> := [];
    var where := "1=1";
    var args: seq<SqlArg> := [];
    if programId != 0 {
      AppendFilter(fs, Filter(ProgramCondition, IntArg(programId)), where, args);
      where := where + " AND program_id=%d";
      args := args + [IntArg(programId)];
      fs := fs + [Filter(ProgramCondition, IntArg(programId))];
    }
    if Truthy(from) {
      AppendFilter(fs, Filter(FromCondition, TextArg(from)), where, args);
      where := where + " AND snapshot_date >= %s";
      args := args + [TextArg(from)];
      fs := fs + [Filter(FromCondition, TextArg(from))];
    }
    if Truthy(to) {
      AppendFilter(fs, Filter(ToCondition, TextArg(to)), where, args);
      where := where + " AND snapshot_date <= %s";
      args := args + [TextArg(to)];
      fs := fs + [Filter(ToCondition, TextArg(to))];
    }
    assert fs == Supplied(programId, from, to);
  }

  /** The callback's builder, condition by condition. */
  method BuildFilter(programId: nat, from: string, to: string) returns (where: string, args: seq<SqlArg>)
    ensures args == (if programId != 0 then [IntArg(programId)] else [])
                  + (if Truthy(from) then [TextArg(from)] else [])
                  + (if Truthy(to) then [TextArg(to)] else [])
    ensures Placeholders(where) == Kinds(args)
    ensures programId == 0 && !Truthy(from) && !Truthy(to) ==> where == "1=1"
    ensures where == WhereOf(Supplied(programId, from, to))
  {
    where := "1=1";
    args := [];
    if programId != 0 {
      where := where + " AND program_id=%d";
      args := args + [IntArg(programId)];
    }
    ghost var programText := if programId != 0 then " AND program_id=%d" else "";
    ghost var programArgs := if programId != 0 then [IntArg(programId)] else [];
    assert where == "1=1" + programText && args == programArgs;
    if Truthy(from) {
      where := where + " AND snapshot_date >= %s";
      args := args + [TextArg(from)];
    }
    ghost var fromText := if Truthy(from) then " AND snapshot_date >= %s" else "";
    ghost var fromArgs := if Truthy(from) then [TextArg(from)] else [];
    assert where == "1=1" + programText + fromText && args == programArgs + fromArgs;
    if Truthy(to) {
      where := where + " AND snapshot_date <= %s";
      args := args + [TextArg(to)];
    }
    ghost var toText := if Truthy(to) then " AND snapshot_date <= %s" else "";
    ghost var toArgs := if Truthy(to) then [TextArg(to)] else [];
    assert where == "1=1" + programText + fromText + toText;
    assert args == programArgs + fromArgs + toArgs;
    SuppliedText(programId, from, to);
    SuppliedMatches(programId, from, to);
  }

  /** The fixed texts of the statement handed to `$wpdb->prepare`. */
  const SelectColumns: string := "SELECT snapshot_date, program_id, "
  const MetricColumns: string := "enrollments, completion_rate, avg_score"
  const FromKeyword: string := " FROM "
  const WhereKeyword: string := " WHERE "
  const OrderBySnapshot: string := " ORDER BY snapshot_date ASC"

  /** The full statement handed to `$wpdb->prepare`. */
  function AnalyticsSql(table: string, where: string): string
  {
    SelectColumns + MetricColumns + FromKeyword + table + WhereKeyword + where + OrderBySnapshot
  }

  lemma FixedTextsPercentFree()
    ensures '%' !in SelectColumns && '%' !in MetricColumns
    ensures '%' !in FromKeyword && '%' !in WhereKeyword && '%' !in OrderBySnapshot
  {
  }

  /** With a table name free of `%`, the prepared statement has exactly as
      many placeholders as arguments, each of the right kind. */
  lemma PreparedQueryBalanced(table: string, programId: nat, from: string, to: string)
    requires '%' !in table
    ensures var fs := Supplied(programId, from, to);
      Placeholders(AnalyticsSql(table, WhereOf(fs))) == Kinds(ArgsOf(fs))
  {
    var fs := Supplied(programId, from, to);
    var where := WhereOf(fs);
    SuppliedMatches(programId, from, to);
    SuppliedBalanced(programId, from, to);
    WhereMatchesArgs(fs);
    var head := SelectColumns + MetricColumns + FromKeyword + table + WhereKeyword;
    assert AnalyticsSql(table, where) == head + (where + OrderBySnapshot);
    FixedTextsPercentFree();
    assert '%' !in head;
    NoPercentNoPlaceholders(head);
    NoPercentNoPlaceholders(OrderBySnapshot);
    PlaceholdersConcat(head, where + OrderBySnapshot);
    PlaceholdersConcat(where, OrderBySnapshot);
  }
}
