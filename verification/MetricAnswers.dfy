/** What a metric request is answered with: which queries the executor refuses, and what every row of an
    answer says. */
module MetricAnswers {
  import opened Tables
  import opened Semantic
  import opened Expressions
  import opened MetricCompiler
  import opened MetricMeaning
  import opened MetricPreservation
  import opened MetricOrder

  // ---- the executor -------------------------------------------------------------------------------------

  datatype QueryResult = QueryResult(columns: seq<string>, rows: seq<Row>, truncated: bool)

  /** dict(zip(columns, values)) */
  function ZipRow(columns: seq<string>, values: seq<Value>): Row
    requires |columns| == |values|
  {
    if columns == [] then map[]
    else
      var n := |columns| - 1;
      ZipRow(columns[..n], values[..n])[columns[n] := values[n]]
  }

  /** The engine's tuple for one joined row. */
  function Tuple(select: seq<SelectItem>, scope: Scope): seq<Value> {
    seq(|select|, i requires 0 <= i < |select| => Eval(select[i].expr, scope))
  }

  /** Without repeated names the dictionary holds every value of the tuple under its own name. */
  lemma {:induction false} ZipKeepsAll(columns: seq<string>, values: seq<Value>, i: nat)
    requires |columns| == |values| && Distinct(columns) && i < |columns|
    ensures columns[i] in ZipRow(columns, values) && ZipRow(columns, values)[columns[i]] == values[i]
  {
    var n := |columns| - 1;
    if i < n {
      ZipKeepsAll(columns[..n], values[..n], i);
    }
  }

  lemma {:induction false} ZipOnly(columns: seq<string>, values: seq<Value>)
    requires |columns| == |values|
    ensures ZipRow(columns, values).Keys == NameSet(columns)
  {
    if columns != [] {
      var n := |columns| - 1;
      ZipOnly(columns[..n], values[..n]);
      OneMoreName(columns[..n], columns[n]);
      assert columns[..n] + [columns[n]] == columns;
    }
  }

  /** The rows of the query's meaning are the executor's dictionaries. */
  lemma {:induction false} ProjectIsZip(select: seq<SelectItem>, scope: Scope)
    ensures Project(select, scope) == ZipRow(Aliases(select), Tuple(select, scope))
  {
    if select != [] {
      var n := |select| - 1;
      ProjectIsZip(select[..n], scope);
      assert Aliases(select)[..n] == Aliases(select[..n]) && Tuple(select, scope)[..n] == Tuple(select[..n], scope);
    }
  }

  /** What the executor makes of the fetched tuples: none when a column name repeats; otherwise the first
      `limit` as dictionaries that lose no value, and a mark when there were more. */
  method Collect(columns: seq<string>, fetched: seq<seq<Value>>, limit: nat) returns (r: Option<QueryResult>)
    requires forall i :: 0 <= i < |fetched| ==> |fetched[i]| == |columns|
    ensures r.Some? <==> Distinct(columns)
    ensures r.Some? ==> r.value.columns == columns && (r.value.truncated <==> |fetched| > limit)
    ensures r.Some? ==> |r.value.rows| == if |fetched| > limit then limit else |fetched|
    ensures r.Some? ==> forall i, k :: 0 <= i < |r.value.rows| && 0 <= k < |columns| ==>
      columns[k] in r.value.rows[i] && r.value.rows[i][columns[k]] == fetched[i][k]
    ensures r.Some? ==> forall i :: 0 <= i < |r.value.rows| ==> r.value.rows[i] == ZipRow(columns, fetched[i])
  {
    DistinctBySize(columns);
    if |NameSet(columns)| != |columns| {
      return None;
    }
    var taken := if |fetched| > limit then limit else |fetched|;
    var rows: seq<Row> := [];
    for n := 0 to taken
      invariant |rows| == n
      invariant forall i :: 0 <= i < n ==> rows[i] == ZipRow(columns, fetched[i])
    {
      rows := rows + [ZipRow(columns, fetched[n])];
    }
    forall i, k | 0 <= i < |rows| && 0 <= k < |columns|
      ensures columns[k] in rows[i] && rows[i][columns[k]] == fetched[i][k]
    {
      ZipKeepsAll(columns, fetched[i], k);
    }
    r := Some(QueryResult(columns, rows, |fetched| > limit));
  }

  // ---- which queries are refused ------------------------------------------------------------------------

  /** A flag called like a key column repeats that column's name. */
  lemma ClashRepeats(base: string, columns: seq<string>, ms: seq<MetricSpec>, i: nat) returns (a: nat, b: nat)
    requires i < |ms| && ms[i].name + APPLICABLE_SUFFIX in columns
    ensures var names := Aliases(KeyItems(base, columns) + MetricItems(ms));
      a < b < |names| && names[a] == names[b]
  {
    a :| a < |columns| && columns[a] == ms[i].name + APPLICABLE_SUFFIX;
    b := |columns| + 2 * i + 1;
    MetricItemsAt(ms, i);
  }

  /** Two columns of the metric part never share a name. */
  lemma MetricAliasesApart(ms: seq<MetricSpec>, a: nat, b: nat)
    requires NamesApart(ms) && a < b < |MetricItems(ms)|
    ensures MetricItems(ms)[a].alias != MetricItems(ms)[b].alias
  {
    MetricAlias(ms, a);
    MetricAlias(ms, b);
    var x, y := ms[a / 2].name, ms[b / 2].name;
    SuffixCancels(x, y);
    SuffixCancels(y, x);
    assert x + "" == x && y + "" == y;
  }

  lemma KeyAndMetricApart(ms: seq<MetricSpec>, columns: seq<string>, a: nat, b: nat)
    requires NoClash(ms, columns) && (forall m :: m in ms ==> m.name !in columns)
    requires a < |columns| && b < |MetricItems(ms)|
    ensures columns[a] != MetricItems(ms)[b].alias
  {
    MetricAlias(ms, b);
    var m := ms[b / 2];
    assert m in ms && m.name + "" == m.name;
  }

  lemma ApartWithoutClash(base: string, columns: seq<string>, ms: seq<MetricSpec>)
    requires Distinct(columns) && NamesApart(ms) && NoClash(ms, columns) && forall m :: m in ms ==> m.name !in columns
    ensures Distinct(Aliases(KeyItems(base, columns) + MetricItems(ms)))
  {
    var names := Aliases(KeyItems(base, columns) + MetricItems(ms));
    forall a, b | 0 <= a < b < |names| ensures names[a] != names[b] {
      if |columns| <= a {
        MetricAliasesApart(ms, a - |columns|, b - |columns|);
      } else if |columns| <= b {
        KeyAndMetricApart(ms, columns, a, b - |columns|);
      }
    }
  }

  /** A built query names all its columns differently if and only if no flag of a requested metric is
      called like a key or label column. */
  lemma DistinctIffNoClash(q: MetricQuery, d: Description, filters: Arg<RawFilter>)
    requires QueryFacts(q, d, filters)
    ensures Distinct(Aliases(q.select)) <==> NoClash(q.metrics, q.key.Columns())
  {
    var columns := q.key.Columns();
    if NoClash(q.metrics, columns) {
      ApartWithoutClash(q.base, columns, q.metrics);
    } else {
      var i :| 0 <= i < |q.metrics| && q.metrics[i].name + APPLICABLE_SUFFIX in columns;
      var _, _ := ClashRepeats(q.base, columns, q.metrics, i);
    }
  }

  /** A built query has an answer, whatever the data, if and only if no flag is called like a key column. */
  lemma AnsweredIff(d: Description, available: map<string, MetricSpec>, metrics: Arg<string>,
                    filters: Arg<RawFilter>, order: Arg<RawOrder>, q: MetricQuery, data: Data)
    requires Requested(d, available) && MetricsOk(available, metrics) && Built(d, available, metrics, filters, order, q)
    ensures (exists outs :: Answer(q, data, outs)) <==> NoClash(q.metrics, q.key.Columns())
  {
    BuiltFacts(d, available, metrics, filters, order, q);
    DistinctIffNoClash(q, d, filters);
    if NoClash(q.metrics, q.key.Columns()) {
      var outs := AnswerExists(q, data);
      assert Answer(q, data, outs);
    }
  }

  // ---- what an answer says ------------------------------------------------------------------------------

  /** The i-th result row is the row of this base row, and its entry says what the definitions say. */
  ghost predicate Tells(q: MetricQuery, d: Description, data: Data, out: Out, b: Row) {
    && out == OutOf(q, Around(d, data, q.base, b, LinkedTables(q.metrics)))
    && Faithful(Shape(out.row, q), q, d, data, b) && ShowsKey(Shape(out.row, q), q, b)
  }

  function Without<T>(all: seq<T>, i: nat): seq<T>
    requires i < |all|
  {
    all[..i] + all[i + 1..]
  }

  lemma RemoveOne<T>(all: seq<T>, i: nat)
    requires i < |all|
    ensures multiset(Without(all, i)) == multiset(all) - multiset{all[i]}
    ensures multiset([all[i]] + Without(all, i)) == multiset(all)
  {
    assert all == all[..i] + [all[i]] + all[i + 1..];
  }

  lemma FirstOff<T>(all: seq<T>)
    requires all != []
    ensures multiset(all[1..]) == multiset(all) - multiset{all[0]}
  {
    assert all == [all[0]] + all[1..];
  }

  lemma AddFirst<T>(first: T, a: seq<T>, b: seq<T>)
    requires multiset(a) == multiset(b)
    ensures multiset([first] + a) == multiset([first] + b)
  {
  }

  function Image<A, B>(f: A -> B, all: seq<A>): seq<B> {
    seq(|all|, i requires 0 <= i < |all| => f(all[i]))
  }

  lemma ImageWithout<A, B>(f: A -> B, all: seq<A>, i: nat)
    requires i < |all|
    ensures Image(f, Without(all, i)) == Without(Image(f, all), i)
  {
  }

  lemma ImageMore<A, B>(f: A -> B, first: A, rest: seq<A>)
    ensures Image(f, [first] + rest) == [f(first)] + Image(f, rest)
  {
  }

  lemma Somewhere<T>(x: seq<T>, y: seq<T>) returns (i: nat)
    requires x != [] && multiset(x) == multiset(y)
    ensures i < |y| && y[i] == x[0]
  {
    assert x[0] in multiset(y);
    i :| 0 <= i < |y| && y[i] == x[0];
  }

  /** However the images are arranged, their originals can be arranged alike. */
  lemma {:induction false} Arrange<A, B>(f: A -> B, x: seq<B>, all: seq<A>) returns (arranged: seq<A>)
    requires multiset(x) == multiset(Image(f, all))
    ensures multiset(arranged) == multiset(all) && x == Image(f, arranged)
  {
    assert |x| == |multiset(x)| == |multiset(Image(f, all))| == |all|;
    if x == [] {
      arranged := [];
    } else {
      var i := Somewhere(x, Image(f, all));
      FirstOff(x);
      RemoveOne(Image(f, all), i);
      ImageWithout(f, all, i);
      var rest := Arrange(f, x[1..], Without(all, i));
      arranged := [all[i]] + rest;
      ImageMore(f, all[i], rest);
      RemoveOne(all, i);
      AddFirst(all[i], rest, Without(all, i));
      assert x == [x[0]] + x[1..];
    }
  }

  lemma ArrangeRows(q: MetricQuery, d: Description, data: Data, x: seq<Out>, wanted: seq<Row>) returns (rows: seq<Row>)
    requires multiset(x) == multiset(OutsOf(q, d, data, wanted))
    ensures multiset(rows) == multiset(wanted) && x == OutsOf(q, d, data, rows)
  {
    var f := (b: Row) => OutOf(q, Around(d, data, q.base, b, LinkedTables(q.metrics)));
    assert OutsOf(q, d, data, wanted) == Image(f, wanted);
    rows := Arrange(f, x, wanted);
    assert OutsOf(q, d, data, rows) == Image(f, rows);
  }

  lemma OutTells(q: MetricQuery, d: Description, filters: Arg<RawFilter>, data: Data, b: Row)
    requires QueryFacts(q, d, filters) && NoClash(q.metrics, q.key.Columns())
    ensures Tells(q, d, data, OutOf(q, Around(d, data, q.base, b, LinkedTables(q.metrics))), b)
  {
    EntryFaithful(q, d, filters, data, b);
    KeyColumnsShown(q, d, filters, data, b);
  }

  lemma RowsTell(q: MetricQuery, d: Description, filters: Arg<RawFilter>, data: Data, x: seq<Out>, rows: seq<Row>)
    requires QueryFacts(q, d, filters) && NoClash(q.metrics, q.key.Columns()) && x == OutsOf(q, d, data, rows)
    ensures |rows| == |x| && forall i :: 0 <= i < |x| ==> Tells(q, d, data, x[i], rows[i])
  {
    forall i | 0 <= i < |x| ensures Tells(q, d, data, x[i], rows[i]) {
      OutTells(q, d, filters, data, rows[i]);
    }
  }

  /** Every answer to a metric request is the base rows the filters select, in some order that the request
      allows, one entry each; each entry shows its row's key and label columns and says of every requested
      metric exactly what its definition says of that row. */
  lemma AnswerTells(d: Description, available: map<string, MetricSpec>, metrics: Arg<string>,
                    filters: Arg<RawFilter>, order: Arg<RawOrder>, q: MetricQuery, data: Data, x: seq<Out>)
    returns (rows: seq<Row>)
    requires Requested(d, available) && MetricsOk(available, metrics) && Built(d, available, metrics, filters, order, q)
    requires SelectedOnce(q, d, data, filters) && Answer(q, data, x)
    ensures filters.List? ==> forall f :: f in filters.items ==> f.RawFilter?
    ensures multiset(rows) == multiset(WantedRows(filters, RowsOf(data, q.base))) && |rows| == |x|
    ensures forall i :: 0 <= i < |x| ==> Tells(q, d, data, x[i], rows[i])
  {
    BuiltFacts(d, available, metrics, filters, order, q);
    DistinctIffNoClash(q, d, filters);
    OutputIsWanted(q, d, filters, RowsOf(data, q.base), data);
    rows := ArrangeRows(q, d, data, x, WantedRows(filters, RowsOf(data, q.base)));
    RowsTell(q, d, filters, data, x, rows);
  }

  /** ... and there is one entry each if and only if no selected base row has two matches in a linked table. */
  lemma OneEntryEachIff(d: Description, available: map<string, MetricSpec>, metrics: Arg<string>,
                        filters: Arg<RawFilter>, order: Arg<RawOrder>, q: MetricQuery, data: Data, x: seq<Out>)
    requires Requested(d, available) && MetricsOk(available, metrics) && Built(d, available, metrics, filters, order, q)
    requires Answer(q, data, x)
    ensures filters.List? ==> forall f :: f in filters.items ==> f.RawFilter?
    ensures |x| >= |WantedRows(filters, RowsOf(data, q.base))|
    ensures |x| == |WantedRows(filters, RowsOf(data, q.base))| <==> SelectedOnce(q, d, data, filters)
  {
    BuiltFacts(d, available, metrics, filters, order, q);
    OneRowEachIff(q, d, filters, RowsOf(data, q.base), data);
    var outs := Output(q, RowsOf(data, q.base), data);
    assert |x| == |multiset(x)| == |multiset(outs)| == |outs|;
  }

  // ---- the response -------------------------------------------------------------------------------------

  /** What a client sees: the entries of the first `limit` rows of an answer, and whether there were more. */
  ghost predicate Responds(q: MetricQuery, data: Data, limit: nat, entries: seq<Entry>, truncated: bool) {
    exists x :: Answer(q, data, x) && ResponseOf(q, x, limit, entries, truncated)
  }

  predicate ResponseOf(q: MetricQuery, x: seq<Out>, limit: nat, entries: seq<Entry>, truncated: bool) {
    && (truncated <==> |x| > limit)
    && |entries| == (if |x| > limit then limit else |x|)
    && forall i :: 0 <= i < |entries| ==> entries[i] == Shape(x[i].row, q)
  }

  /** When no selected row has two matches or the key of another, the response is determined by the request. */
  lemma ResponseUnique(d: Description, available: map<string, MetricSpec>, metrics: Arg<string>,
                       filters: Arg<RawFilter>, order: Arg<RawOrder>, q: MetricQuery, data: Data, limit: nat,
                       e1: seq<Entry>, t1: bool, e2: seq<Entry>, t2: bool)
    requires Requested(d, available) && MetricsOk(available, metrics) && Built(d, available, metrics, filters, order, q)
    requires SelectedOnce(q, d, data, filters) && SelectedApart(q, data, filters)
    requires Responds(q, data, limit, e1, t1) && Responds(q, data, limit, e2, t2)
    ensures e1 == e2 && t1 == t2
  {
    var x, y := AnswerOf(q, data, limit, e1, t1), AnswerOf(q, data, limit, e2, t2);
    AnswerUnique(d, available, metrics, filters, order, q, data, x, y);
    SameResponse(q, x, limit, e1, t1, e2, t2);
  }

  ghost function AnswerOf(q: MetricQuery, data: Data, limit: nat, entries: seq<Entry>, truncated: bool): (x: seq<Out>)
    requires Responds(q, data, limit, entries, truncated)
    ensures Answer(q, data, x) && ResponseOf(q, x, limit, entries, truncated)
  {
    var x :| Answer(q, data, x) && ResponseOf(q, x, limit, entries, truncated);
    x
  }

  lemma SameResponse(q: MetricQuery, x: seq<Out>, limit: nat, e1: seq<Entry>, t1: bool, e2: seq<Entry>, t2: bool)
    requires ResponseOf(q, x, limit, e1, t1) && ResponseOf(q, x, limit, e2, t2)
    ensures e1 == e2 && t1 == t2
  {
    assert |e1| == |e2| && forall i :: 0 <= i < |e1| ==> e1[i] == e2[i];
  }

  // ---- definitions that can never be answered -------------------------------------------------------------

  /** One request that names such a metric is refused whatever else it asks for. */
  lemma ClashRefused(d: Description, available: map<string, MetricSpec>, metrics: Arg<string>,
                     filters: Arg<RawFilter>, order: Arg<RawOrder>, q: MetricQuery, data: Data, n: string)
    requires Requested(d, available) && MetricsOk(available, metrics) && Built(d, available, metrics, filters, order, q)
    requires n in metrics.items && n + APPLICABLE_SUFFIX in q.key.Columns()
    ensures forall outs :: !Answer(q, data, outs)
  {
    BuiltFacts(d, available, metrics, filters, order, q);
    var i :| 0 <= i < |metrics.items| && metrics.items[i] == n;
    assert q.metrics[i].name == n;
    var _, _ := ClashRepeats(q.base, q.key.Columns(), q.metrics, i);
  }

  lemma {:induction false} JoinsExist(d: Description, base: string, tables: set<string>) returns (joins: seq<Join>)
    requires forall t :: t in tables ==> FindLink(d.links, base, t).Some? && FindLink(d.links, base, t).value.on != []
    ensures JoinsFor(d, base, joins, tables)
  {
    if tables == {} {
      joins := [];
    } else {
      var t :| t in tables;
      var rest := JoinsExist(d, base, tables - {t});
      var j := Join(t, AllEqual(base, t, FindLink(d.links, base, t).value.on));
      JoinsForMore(d, base, rest, tables - {t}, j);
      joins := rest + [j];
      assert tables - {t} + {t} == tables;
    }
  }

  /** The request for one metric and nothing else is always acceptable and has a query. */
  lemma AloneHasQuery(d: Description, available: map<string, MetricSpec>, n: string) returns (q: MetricQuery)
    requires Requested(d, available) && n in available
    ensures MetricsOk(available, List([n])) && Built(d, available, List([n]), Absent, Absent, q)
    ensures q.metrics == [available[n]] && FindKey(d.keys, available[n].base) == Some(q.key)
  {
    var m := available[n];
    var key := FindKey(d.keys, m.base).value;
    LinkedTablesLinked(d, m.base, [m]);
    var joins := JoinsExist(d, m.base, LinkedTables([m]));
    q := MetricQuery(KeyItems(m.base, key.Columns()) + MetricItems([m]), m.base, joins, [],
                     OrderOf(Absent, m.base, key, [n]), [m], key);
  }

  /** Some request that names the metric has an answer on this data. */
  ghost predicate Answerable(d: Description, available: map<string, MetricSpec>, data: Data, n: string) {
    exists metrics: Arg<string>, filters: Arg<RawFilter>, order: Arg<RawOrder>, q: MetricQuery, outs: seq<Out> ::
      && MetricsOk(available, metrics) && n in metrics.items
      && Built(d, available, metrics, filters, order, q) && Answer(q, data, outs)
  }

  lemma AnsweredAlone(d: Description, available: map<string, MetricSpec>, data: Data, n: string)
    requires Requested(d, available) && n in available
    requires n + APPLICABLE_SUFFIX !in FindKey(d.keys, available[n].base).value.Columns()
    ensures Answerable(d, available, data, n)
  {
    var q := AloneHasQuery(d, available, n);
    AnsweredIff(d, available, List([n]), Absent, Absent, q, data);
    var outs :| Answer(q, data, outs);
    assert n in List([n]).items && Built(d, available, List([n]), Absent, Absent, q) && Answer(q, data, outs);
  }

  lemma NeverAnswered(d: Description, available: map<string, MetricSpec>, data: Data, n: string)
    requires Requested(d, available) && n in available && Answerable(d, available, data, n)
    ensures n + APPLICABLE_SUFFIX !in FindKey(d.keys, available[n].base).value.Columns()
  {
    var metrics: Arg<string>, filters: Arg<RawFilter>, order: Arg<RawOrder>, q: MetricQuery, outs: seq<Out> :|
      && MetricsOk(available, metrics) && n in metrics.items
      && Built(d, available, metrics, filters, order, q) && Answer(q, data, outs);
    if n + APPLICABLE_SUFFIX in q.key.Columns() {
      ClashRefused(d, available, metrics, filters, order, q, data, n);
    }
  }

  /** An admitted metric can be answered, alone or with others, if and only if its name with the flag's suffix
      is not a key or label column of its base table. Admission tests the bare name only. */
  lemma AnswerableIff(d: Description, available: map<string, MetricSpec>, data: Data, n: string)
    requires Requested(d, available) && n in available
    ensures Answerable(d, available, data, n)
      <==> n + APPLICABLE_SUFFIX !in FindKey(d.keys, available[n].base).value.Columns()
  {
    if n + APPLICABLE_SUFFIX !in FindKey(d.keys, available[n].base).value.Columns() {
      AnsweredAlone(d, available, data, n);
    } else if Answerable(d, available, data, n) {
      NeverAnswered(d, available, data, n);
    }
  }

  const CLASH_COLUMNS := [ColumnSpec("id", Textual), ColumnSpec("m__applicable", Textual)]
  const CLASH_KEY := KeySpec("t", ["id"], ["m__applicable"])
  const CLASH := Description([TableSpec("t", CLASH_COLUMNS)], [], [CLASH_KEY])
  const ONE := Node(Op(Lit(Num(1.0))), [])
  const CLASH_ROW := MetricRow(Some("m"), true, Some("row"), Some("t"), Some(Parsed(ONE)), None, None, None)
  const CLASH_METRIC := MetricSpec("m", "", "t", ONE, None, None, {}, ONE, None)

  lemma ClashColumns()
    ensures HasColumn(CLASH, "t", "id") && HasColumn(CLASH, "t", "m__applicable")
    ensures FindTable(CLASH.tables, "t").Some? && FindKey(CLASH.keys, "t") == Some(CLASH_KEY)
    ensures CLASH_KEY.Columns() == ["id", "m__applicable"]
  {
  }

  lemma ClashParts()
    ensures TableOk(CLASH.tables[0]) && KeyOk(CLASH, CLASH_KEY)
  {
    ClashColumns();
  }

  lemma ClashWellFormed()
    ensures WellFormed(CLASH)
  {
    ClashParts();
  }

  lemma ClashCompiled()
    ensures Definable("m", CLASH_ROW, CLASH) && Compiled(CLASH_METRIC, CLASH)
  {
    ClashColumns();
    assert Tags(ONE) == [Op(Lit(Num(1.0)))];
    assert LinkedBy(Tags(ONE), "t") == {};
    assert QualifyAll([], "t") == [];
    assert |"m"| != |"m__applicable"| && |"m"| != |"id"|;
  }

  lemma ClashSelect()
    ensures Aliases(KeyItems("t", CLASH_KEY.Columns()) + MetricItems([CLASH_METRIC])) ==
      ["id", "m__applicable", "m", "m__applicable"]
    ensures "m" + APPLICABLE_SUFFIX in CLASH_KEY.Columns()
  {
    var names := Aliases(KeyItems("t", CLASH_KEY.Columns()) + MetricItems([CLASH_METRIC]));
    MetricItemsAt([CLASH_METRIC], 0);
    assert CLASH_KEY.Columns() == ["id", "m__applicable"] && "m" + APPLICABLE_SUFFIX == "m__applicable";
    assert CLASH_KEY.Columns()[1] == "m__applicable";
    assert |names| == 4;
  }

  /** A description and a definition that pass every check, the query built for the definition, and its
      refusal: the result would have two columns called "m__applicable". */
  lemma ClashIsRefused(data: Data) returns (q: MetricQuery)
    ensures Requested(CLASH, map["m" := CLASH_METRIC]) && Definable("m", CLASH_ROW, CLASH)
    ensures MetricsOk(map["m" := CLASH_METRIC], List(["m"]))
    ensures Built(CLASH, map["m" := CLASH_METRIC], List(["m"]), Absent, Absent, q)
    ensures Aliases(q.select) == ["id", "m__applicable", "m", "m__applicable"]
    ensures forall outs :: !Answer(q, data, outs)
    ensures !Answerable(CLASH, map["m" := CLASH_METRIC], data, "m")
  {
    ClashWellFormed();
    ClashCompiled();
    ClashColumns();
    ClashSelect();
    var available := map["m" := CLASH_METRIC];
    q := AloneHasQuery(CLASH, available, "m");
    ClashRefused(CLASH, available, List(["m"]), Absent, Absent, q, data, "m");
    AnswerableIff(CLASH, available, data, "m");
  }
}
