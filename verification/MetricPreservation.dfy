/** The compiler preserves meaning: what a compiled query returns for each base row, and what the entry says of it. */
module MetricPreservation {
  import opened Tables
  import opened Semantic
  import opened Expressions
  import opened MetricCompiler
  import opened MetricMeaning

  // ---- filters ------------------------------------------------------------------------------------------

  /** Literals round-trip through their syntax, negative numbers included. */
  lemma LiteralMeansItsValue(v: Json, kind: ColumnType, scope: Scope)
    requires LiteralFor(v, kind).Some?
    ensures Eval(LiteralFor(v, kind).value, scope) == ValueOf(v) != Null
  {
    if !v.JText? {
      var x := ValueOf(v).n;
      if x < 0.0 {
        EvalOne(Neg, Literal(Num(-x)), scope);
      }
    }
  }

  lemma {:induction false} LiteralsMeanTheirValues(vs: seq<Json>, kind: ColumnType, scope: Scope)
    requires forall v :: v in vs ==> LiteralFor(v, kind).Some?
    ensures var values := EvalAll(LiteralsFor(vs, kind), scope);
      |values| == |vs| && forall i :: 0 <= i < |vs| ==> values[i] == ValueOf(vs[i]) != Null
  {
    if vs != [] {
      LiteralMeansItsValue(vs[0], kind, scope);
      LiteralsMeanTheirValues(vs[1..], kind, scope);
      var es := LiteralsFor(vs, kind);
      assert es[0] == LiteralFor(vs[0], kind).value && es[1..] == LiteralsFor(vs[1..], kind);
      assert EvalAll(es, scope) == [ValueOf(vs[0])] + EvalAll(es[1..], scope);
    }
  }

  lemma {:induction false} InIsMembership(v: Value, list: seq<Value>)
    requires forall i :: 0 <= i < |list| ==> list[i] != Null
    ensures InValue(v, list) == if list == [] then FALSE else if v.Null? then Null else Bool(v in list)
  {
    if list != [] {
      InIsMembership(v, list[1..]);
      assert v in list <==> v == list[0] || v in list[1..];
    }
  }

  lemma EvalAllCons(e: Expr, es: seq<Expr>, scope: Scope)
    ensures EvalAll([e] + es, scope) == [Eval(e, scope)] + EvalAll(es, scope)
  {
    assert ([e] + es)[1..] == es;
  }

  lemma InApplies(v: Value, values: seq<Value>)
    requires values != [] && forall i :: 0 <= i < |values| ==> values[i] != Null
    ensures Apply(In, [v] + values) == if v.Null? then Null else Bool(v in values)
  {
    assert ([v] + values)[1..] == values;
    InIsMembership(v, values);
  }

  lemma InEvaluates(left: Expr, vs: seq<Json>, kind: ColumnType, scope: Scope)
    requires vs != [] && forall v :: v in vs ==> LiteralFor(v, kind).Some?
    ensures var v := Eval(left, scope);
      Eval(Operate(In, [left] + LiteralsFor(vs, kind)), scope)
      == if v.Null? then Null else Bool(exists i :: 0 <= i < |vs| && v == ValueOf(vs[i]))
  {
    var es, v := LiteralsFor(vs, kind), Eval(left, scope);
    var values := EvalAll(es, scope);
    LiteralsMeanTheirValues(vs, kind, scope);
    EvalAllCons(left, es, scope);
    InApplies(v, values);
    assert v in values <==> exists i :: 0 <= i < |vs| && v == ValueOf(vs[i]);
  }

  lemma InFilterTrue(f: RawFilter, d: Description, base: string, key: KeySpec, scope: Scope, b: Row)
    requires FilterOk(f, d, base, key) && f.op in ["in", "not_in"] && base in scope && scope[base] == b
    ensures Eval(FilterExpr(f, d, base, key), scope) == TRUE <==> Selects(f, Field(b, f.column))
  {
    var kind, left := KindOf(d, base, f.column), ColumnOf(base, f.column);
    InEvaluates(left, f.value.vs, kind, scope);
    EvalColumn(base, f.column, scope);
    EvalOne(Not, Operate(In, [left] + LiteralsFor(f.value.vs, kind)), scope);
  }

  lemma ComparisonTrue(f: RawFilter, d: Description, base: string, key: KeySpec, scope: Scope, b: Row)
    requires FilterOk(f, d, base, key) && f.op !in ["in", "not_in"] && base in scope && scope[base] == b
    ensures Eval(FilterExpr(f, d, base, key), scope) == TRUE <==> Selects(f, Field(b, f.column))
  {
    var kind, left := KindOf(d, base, f.column), ColumnOf(base, f.column);
    var right := LiteralFor(f.value.v, kind).value;
    LiteralMeansItsValue(f.value.v, kind, scope);
    EvalTwo(Comparison(f.op).value, left, right, scope);
    EvalColumn(base, f.column, scope);
  }

  /** A compiled filter is true of a joined row exactly when the request selects its base row. */
  lemma FilterTrueIff(f: RawFilter, d: Description, base: string, key: KeySpec, scope: Scope, b: Row)
    requires FilterOk(f, d, base, key) && base in scope && scope[base] == b
    ensures Eval(FilterExpr(f, d, base, key), scope) == TRUE <==> Selects(f, Field(b, f.column))
  {
    if f.op in ["in", "not_in"] {
      InFilterTrue(f, d, base, key, scope, b);
    } else {
      ComparisonTrue(f, d, base, key, scope, b);
    }
  }

  // ---- select ---------------------------------------------------------------------------------------------

  lemma {:induction false} ProjectAt(select: seq<SelectItem>, scope: Scope, i: nat)
    requires i < |select| && forall k :: i < k < |select| ==> select[k].alias != select[i].alias
    ensures Field(Project(select, scope), select[i].alias) == Eval(select[i].expr, scope)
  {
    var n := |select| - 1;
    if i < n {
      ProjectAt(select[..n], scope, i);
    }
  }

  lemma {:induction false} MetricItemsAt(ms: seq<MetricSpec>, i: nat)
    requires i < |ms|
    ensures |MetricItems(ms)| == 2 * |ms|
    ensures MetricItems(ms)[2 * i] == SelectItem(ms[i].name, ValueExpr(ms[i]))
    ensures MetricItems(ms)[2 * i + 1] == SelectItem(ms[i].name + APPLICABLE_SUFFIX, ApplicableExpr(ms[i]))
  {
    var n := |ms| - 1;
    if n > 0 {
      MetricItemsAt(ms[..n], if i < n then i else n - 1);
    }
  }

  /** Every alias of the metric part belongs to one of its metrics. */
  lemma MetricAlias(ms: seq<MetricSpec>, k: nat)
    requires k < |MetricItems(ms)| && |ms| > 0
    ensures k / 2 < |ms|
    ensures MetricItems(ms)[k].alias == ms[k / 2].name + if k % 2 == 0 then "" else APPLICABLE_SUFFIX
  {
    MetricItemsAt(ms, 0);
    MetricItemsAt(ms, k / 2);
    assert k == 2 * (k / 2) + k % 2;
    assert ms[k / 2].name + "" == ms[k / 2].name;
  }

  lemma SuffixCancels(a: string, b: string)
    ensures a + APPLICABLE_SUFFIX == b + APPLICABLE_SUFFIX ==> a == b
    ensures EndsWith(a + APPLICABLE_SUFFIX, APPLICABLE_SUFFIX)
  {
  }

  predicate NamesApart(ms: seq<MetricSpec>) {
    && (forall i, k :: 0 <= i < k < |ms| ==> ms[i].name != ms[k].name)
    && forall i :: 0 <= i < |ms| ==> !EndsWith(ms[i].name, APPLICABLE_SUFFIX)
  }

  /** No alias after a metric's value, or after its flag, is the same. */
  lemma LaterAliases(ms: seq<MetricSpec>, i: nat, k: nat)
    requires i < |ms| && NamesApart(ms) && k < |MetricItems(ms)|
    ensures k > 2 * i ==> MetricItems(ms)[k].alias != ms[i].name
    ensures k > 2 * i + 1 ==> MetricItems(ms)[k].alias != ms[i].name + APPLICABLE_SUFFIX
  {
    MetricAlias(ms, k);
    var other := ms[k / 2].name;
    SuffixCancels(other, ms[i].name);
    assert other + "" == other;
  }

  /** The value and the flag of a metric are never overwritten by a later column. */
  lemma MetricColumns(base: string, columns: seq<string>, ms: seq<MetricSpec>, scope: Scope, i: nat)
    requires i < |ms| && NamesApart(ms)
    ensures var row := Project(KeyItems(base, columns) + MetricItems(ms), scope);
      && Field(row, ms[i].name) == Eval(ValueExpr(ms[i]), scope)
      && Field(row, ms[i].name + APPLICABLE_SUFFIX) == Eval(ApplicableExpr(ms[i]), scope)
  {
    var items, n := MetricItems(ms), |columns|;
    var select := KeyItems(base, columns) + items;
    MetricItemsAt(ms, i);
    forall k | n <= k < |select|
      ensures select[k] == items[k - n]
      ensures k > n + 2 * i ==> select[k].alias != ms[i].name
      ensures k > n + 2 * i + 1 ==> select[k].alias != ms[i].name + APPLICABLE_SUFFIX
    {
      LaterAliases(ms, i, k - n);
    }
    ProjectAt(select, scope, n + 2 * i);
    ProjectAt(select, scope, n + 2 * i + 1);
  }

  /** No key column is called like a flag of a requested metric. */
  predicate NoClash(ms: seq<MetricSpec>, columns: seq<string>) {
    forall i :: 0 <= i < |ms| ==> ms[i].name + APPLICABLE_SUFFIX !in columns
  }

  lemma KeyColumnShown(base: string, columns: seq<string>, ms: seq<MetricSpec>, scope: Scope, i: nat)
    requires i < |columns| && (forall k :: i < k < |columns| ==> columns[k] != columns[i])
    requires forall k :: 0 <= k < |ms| ==> ms[k].name != columns[i] && ms[k].name + APPLICABLE_SUFFIX != columns[i]
    ensures Cell(scope, base, columns[i]) ==
      Field(Project(KeyItems(base, columns) + MetricItems(ms), scope), columns[i])
  {
    var select := KeyItems(base, columns) + MetricItems(ms);
    forall k | i < k < |select| ensures select[k].alias != columns[i] {
      if k >= |columns| {
        if ms != [] {
          MetricAlias(ms, k - |columns|);
          assert ms[(k - |columns|) / 2].name + "" == ms[(k - |columns|) / 2].name;
        }
      }
    }
    ProjectAt(select, scope, i);
    EvalColumn(base, columns[i], scope);
  }

  // ---- metrics ----------------------------------------------------------------------------------------------

  lemma ApplicableTrue(m: MetricSpec, d: Description, scope: Scope)
    requires Compiled(m, d)
    ensures Truthy(Eval(ApplicableExpr(m), scope)) <==> Applies(m, scope)
  {
    if m.condition.Some? {
      QualifyPreservesMeaning(m.condition.value, m.base, scope);
      EvalOne(Paren, m.applicable.value, scope);
      EvalTwo(Coalesce, Operate(Paren, [m.applicable.value]), Literal(FALSE), scope);
      var c := Eval(m.applicable.value, scope);
      assert CoalesceValue([c, FALSE]) == if c.Null? then FALSE else c;
    }
  }

  lemma ValueMasked(m: MetricSpec, d: Description, scope: Scope)
    requires Compiled(m, d)
    ensures Eval(ValueExpr(m), scope) == if Applies(m, scope) then Meaning(m.formula, m.base, scope) else Null
  {
    QualifyPreservesMeaning(m.formula, m.base, scope);
    if m.condition.Some? {
      ApplicableTrue(m, d, scope);
      EvalOne(Paren, m.value, scope);
      EvalTwo(Case, ApplicableExpr(m), Operate(Paren, [m.value]), scope);
      var a, v := Eval(ApplicableExpr(m), scope), Eval(m.value, scope);
      assert CaseValue([a, v]) == if Truthy(a) then v else Null;
    }
  }

  /** Tables joined for other metrics do not change what this one means. */
  lemma OwnTablesSuffice(m: MetricSpec, d: Description, data: Data, b: Row, tables: set<string>)
    requires Compiled(m, d) && m.linked <= tables && m.base !in tables
    ensures var all, own := Around(d, data, m.base, b, tables), Around(d, data, m.base, b, m.linked);
      && Meaning(m.formula, m.base, all) == Meaning(m.formula, m.base, own)
      && (Applies(m, all) <==> Applies(m, own))
  {
    var all, own := Around(d, data, m.base, b, tables), Around(d, data, m.base, b, m.linked);
    MeaningLooksOnlyAt(m.formula, m.base, all, own);
    if m.condition.Some? {
      MeaningLooksOnlyAt(m.condition.value, m.base, all, own);
    }
  }

  lemma ReadingPreserved(q: MetricQuery, d: Description, data: Data, b: Row, tables: set<string>, i: nat)
    requires i < |q.metrics| && NamesApart(q.metrics) && Compiled(q.metrics[i], d) && q.metrics[i].base == q.base
    requires q.metrics[i].linked <= tables && q.base !in tables
    requires q.select == KeyItems(q.base, q.key.Columns()) + MetricItems(q.metrics)
    ensures var m, row := q.metrics[i], Project(q.select, Around(d, data, q.base, b, tables));
      ReadingOf(m, Field(row, m.name), Truthy(Field(row, m.name + APPLICABLE_SUFFIX))) == DirectReading(m, d, data, b)
  {
    var m, scope := q.metrics[i], Around(d, data, q.base, b, tables);
    MetricColumns(q.base, q.key.Columns(), q.metrics, scope, i);
    ApplicableTrue(m, d, scope);
    ValueMasked(m, d, scope);
    OwnTablesSuffice(m, d, data, b, tables);
  }

  lemma {:induction false} ReadingsAt(row: Row, ms: seq<MetricSpec>, i: nat)
    requires i < |ms| && NamesApart(ms)
    ensures ms[i].name in Readings(row, ms)
    ensures Readings(row, ms)[ms[i].name] ==
      ReadingOf(ms[i], Field(row, ms[i].name), Truthy(Field(row, ms[i].name + APPLICABLE_SUFFIX)))
  {
    var n := |ms| - 1;
    if i < n {
      ReadingsAt(row, ms[..n], i);
    }
  }

  lemma {:induction false} ReadingsOnly(row: Row, ms: seq<MetricSpec>, name: string)
    requires name in Readings(row, ms)
    ensures exists i :: 0 <= i < |ms| && ms[i].name == name
  {
    var n := |ms| - 1;
    if name != ms[n].name {
      ReadingsOnly(row, ms[..n], name);
      var i :| 0 <= i < n && ms[..n][i].name == name;
      assert ms[i].name == name;
    }
  }

  // ---- one base row after the other ---------------------------------------------------------------------------

  predicate Requested(d: Description, available: map<string, MetricSpec>) {
    WellFormed(d) && forall n :: n in available ==> available[n].name == n && Compiled(available[n], d)
  }

  /** An entry says about a base row exactly what the definitions of the requested metrics say. */
  ghost predicate Faithful(e: Entry, q: MetricQuery, d: Description, data: Data, b: Row) {
    && (forall n :: n in e.metrics <==> exists i :: 0 <= i < |q.metrics| && q.metrics[i].name == n)
    && (forall i :: 0 <= i < |q.metrics| ==>
          q.metrics[i].name in e.metrics && e.metrics[q.metrics[i].name] == DirectReading(q.metrics[i], d, data, b))
    && e.columns.Keys == (set c | c in q.key.Columns())
  }

  predicate ShowsKey(e: Entry, q: MetricQuery, b: Row) {
    forall c :: c in q.key.Columns() ==> c in e.columns && e.columns[c] == Field(b, c)
  }

  function WantedRows(filters: Arg<RawFilter>, rows: seq<Row>): seq<Row>
    requires filters.List? ==> forall f :: f in filters.items ==> f.RawFilter?
  {
    if rows == [] then [] else (if Wanted(filters, rows[0]) then [rows[0]] else []) + WantedRows(filters, rows[1..])
  }

  /** No linked table holds a second match for the base row. */
  predicate Unambiguous(q: MetricQuery, d: Description, data: Data, b: Row) {
    forall t :: t in LinkedTables(q.metrics) ==> MatchedOnce(d, data, q.base, b, t)
  }

  /** ... and so for every base row that the filters select. Other rows may match as often as they like. */
  predicate SelectedOnce(q: MetricQuery, d: Description, data: Data, filters: Arg<RawFilter>) {
    forall b :: b in RowsOf(data, q.base) && Selected(filters, b) ==> Unambiguous(q, d, data, b)
  }

  predicate Selected(filters: Arg<RawFilter>, b: Row) {
    (filters.List? ==> forall f :: f in filters.items ==> f.RawFilter?) && Wanted(filters, b)
  }

  /** The facts about a built query that the theorems use. */
  ghost predicate QueryFacts(q: MetricQuery, d: Description, filters: Arg<RawFilter>) {
    && NamesApart(q.metrics) && (forall m :: m in q.metrics ==> Compiled(m, d) && m.base == q.base)
    && q.select == KeyItems(q.base, q.key.Columns()) + MetricItems(q.metrics)
    && JoinsFor(d, q.base, q.joins, LinkedTables(q.metrics)) && q.base !in LinkedTables(q.metrics)
    && KeyOk(d, q.key) && FiltersOk(filters, d, q.base, q.key)
    && (forall m :: m in q.metrics ==> m.name !in q.key.Columns())
    && |q.where| == (if filters.List? then |filters.items| else 0)
    && (forall i :: 0 <= i < |q.where| ==> q.where[i] == FilterExpr(filters.items[i], d, q.base, q.key))
  }

  lemma BuiltMetrics(d: Description, available: map<string, MetricSpec>, names: seq<string>, base: string,
                     ms: seq<MetricSpec>)
    requires forall n :: n in available ==> available[n].name == n && Compiled(available[n], d)
    requires Distinct(names) && |ms| == |names|
    requires forall n :: n in names ==> n in available && available[n].base == base
    requires forall i :: 0 <= i < |ms| ==> ms[i] == available[names[i]]
    ensures NamesApart(ms) && forall m :: m in ms ==> Compiled(m, d) && m.base == base
  {
  }

  lemma NotItsOwnLink(d: Description, base: string, ms: seq<MetricSpec>)
    requires forall m :: m in ms ==> Compiled(m, d) && m.base == base
    ensures base !in LinkedTables(ms)
  {
  }

  lemma BuiltFacts(d: Description, available: map<string, MetricSpec>, metrics: Arg<string>,
                   filters: Arg<RawFilter>, order: Arg<RawOrder>, q: MetricQuery)
    requires Requested(d, available) && MetricsOk(available, metrics) && Built(d, available, metrics, filters, order, q)
    ensures QueryFacts(q, d, filters)
  {
    BuiltMetrics(d, available, metrics.items, q.base, q.metrics);
    NotItsOwnLink(d, q.base, q.metrics);
    assert q.key in d.keys;
  }

  lemma ConditionIffSelects(q: MetricQuery, d: Description, filters: Arg<RawFilter>, scope: Scope, b: Row, i: nat)
    requires QueryFacts(q, d, filters) && q.base in scope && scope[q.base] == b && i < |q.where|
    ensures filters.List? && filters.items[i].RawFilter? && q.where[i] in q.where
    ensures Eval(q.where[i], scope) == TRUE <==> Selects(filters.items[i], Field(b, filters.items[i].column))
  {
    assert filters.items[i] in filters.items;
    FilterTrueIff(filters.items[i], d, q.base, q.key, scope, b);
  }

  lemma PassesIffWanted(q: MetricQuery, d: Description, filters: Arg<RawFilter>, scope: Scope, b: Row)
    requires QueryFacts(q, d, filters) && q.base in scope && scope[q.base] == b
    ensures Passes(q.where, scope) <==> Wanted(filters, b)
  {
    if Passes(q.where, scope) && filters.List? {
      forall f | f in filters.items ensures Selects(f, Field(b, f.column)) {
        var i :| 0 <= i < |filters.items| && filters.items[i] == f;
        ConditionIffSelects(q, d, filters, scope, b, i);
      }
    }
    if Wanted(filters, b) {
      forall e | e in q.where ensures Eval(e, scope) == TRUE {
        var i :| 0 <= i < |q.where| && q.where[i] == e;
        ConditionIffSelects(q, d, filters, scope, b, i);
        assert filters.items[i] in filters.items;
      }
    }
  }

  lemma {:induction false} NoneKept(q: MetricQuery, scopes: seq<Scope>)
    requires forall s :: s in scopes ==> !Passes(q.where, s)
    ensures Kept(q, scopes) == []
  {
    if scopes != [] {
      NoneKept(q, scopes[1..]);
    }
  }

  lemma {:induction false} AllKept(q: MetricQuery, scopes: seq<Scope>)
    requires forall s :: s in scopes ==> Passes(q.where, s)
    ensures |Kept(q, scopes)| == |scopes|
  {
    if scopes != [] {
      AllKept(q, scopes[1..]);
    }
  }

  /** The filters look at the base row only, so they keep or drop all its joined rows together. */
  lemma KeptTogether(q: MetricQuery, d: Description, filters: Arg<RawFilter>, b: Row, data: Data)
    requires QueryFacts(q, d, filters)
    ensures var scopes := JoinAll(map[q.base := b], q.joins, data);
      |Kept(q, scopes)| == if Wanted(filters, b) then |scopes| else 0
  {
    var scopes := JoinAll(map[q.base := b], q.joins, data);
    JoinsLinked(d, q.base, q.joins, LinkedTables(q.metrics));
    JoinsKeepBase(d, data, q.base, b, q.joins, map[q.base := b]);
    forall s | s in scopes ensures Passes(q.where, s) <==> Wanted(filters, b) {
      PassesIffWanted(q, d, filters, s, b);
    }
    if Wanted(filters, b) {
      AllKept(q, scopes);
    } else {
      NoneKept(q, scopes);
    }
  }

  /** One base row gives its one result row, or none when the filters reject it. */
  lemma RowIsWanted(q: MetricQuery, d: Description, filters: Arg<RawFilter>, b: Row, data: Data)
    requires QueryFacts(q, d, filters) && (Wanted(filters, b) ==> Unambiguous(q, d, data, b))
    ensures Kept(q, JoinAll(map[q.base := b], q.joins, data))
      == if Wanted(filters, b) then [OutOf(q, Around(d, data, q.base, b, LinkedTables(q.metrics)))] else []
  {
    KeptTogether(q, d, filters, b, data);
    if Wanted(filters, b) {
      var scope := Around(d, data, q.base, b, LinkedTables(q.metrics));
      JoinsGiveSurroundings(d, data, q.base, b, q.joins, LinkedTables(q.metrics));
      PassesIffWanted(q, d, filters, scope, b);
      assert Kept(q, [scope]) == [OutOf(q, scope)] + Kept(q, []);
    }
  }

  lemma RowsGiven(q: MetricQuery, d: Description, filters: Arg<RawFilter>, b: Row, data: Data)
    requires QueryFacts(q, d, filters)
    ensures var n := |Kept(q, JoinAll(map[q.base := b], q.joins, data))|;
      if Wanted(filters, b) then n >= 1 && (n == 1 <==> Unambiguous(q, d, data, b)) else n == 0
  {
    KeptTogether(q, d, filters, b, data);
    AppearsOnceIff(d, data, q.base, b, q.joins, LinkedTables(q.metrics));
  }

  predicate EachUnambiguous(q: MetricQuery, d: Description, data: Data, filters: Arg<RawFilter>, rows: seq<Row>)
    requires filters.List? ==> forall f :: f in filters.items ==> f.RawFilter?
  {
    forall b :: b in rows && Wanted(filters, b) ==> Unambiguous(q, d, data, b)
  }

  lemma EachOneMore(q: MetricQuery, d: Description, data: Data, filters: Arg<RawFilter>, rows: seq<Row>)
    requires (filters.List? ==> forall f :: f in filters.items ==> f.RawFilter?) && rows != []
    ensures EachUnambiguous(q, d, data, filters, rows) <==>
      && (Wanted(filters, rows[0]) ==> Unambiguous(q, d, data, rows[0]))
      && EachUnambiguous(q, d, data, filters, rows[1..])
  {
    assert forall b :: b in rows <==> b == rows[0] || b in rows[1..];
  }

  /** No selected row is lost; each has one result row if and only if none of them has two matches. */
  lemma {:induction false} OneRowEachIff(q: MetricQuery, d: Description, filters: Arg<RawFilter>, rows: seq<Row>,
                                         data: Data)
    requires QueryFacts(q, d, filters)
    ensures |Output(q, rows, data)| >= |WantedRows(filters, rows)|
    ensures |Output(q, rows, data)| == |WantedRows(filters, rows)| <==> EachUnambiguous(q, d, data, filters, rows)
  {
    if rows != [] {
      RowsGiven(q, d, filters, rows[0], data);
      OneRowEachIff(q, d, filters, rows[1..], data);
      EachOneMore(q, d, data, filters, rows);
    }
  }

  function OutsOf(q: MetricQuery, d: Description, data: Data, rows: seq<Row>): seq<Out> {
    seq(|rows|, i requires 0 <= i < |rows| => OutOf(q, Around(d, data, q.base, rows[i], LinkedTables(q.metrics))))
  }

  lemma OutsOfOneMore(q: MetricQuery, d: Description, data: Data, b: Row, wanted: bool, rows: seq<Row>)
    ensures OutsOf(q, d, data, (if wanted then [b] else []) + rows)
      == (if wanted then [OutOf(q, Around(d, data, q.base, b, LinkedTables(q.metrics)))] else [])
         + OutsOf(q, d, data, rows)
  {
  }

  /** The result before ordering is one row for each wanted base row, in order. */
  lemma {:induction false} OutputIsWanted(q: MetricQuery, d: Description, filters: Arg<RawFilter>, rows: seq<Row>,
                                          data: Data)
    requires QueryFacts(q, d, filters) && EachUnambiguous(q, d, data, filters, rows)
    ensures Output(q, rows, data) == OutsOf(q, d, data, WantedRows(filters, rows))
  {
    if rows != [] {
      EachOneMore(q, d, data, filters, rows);
      RowIsWanted(q, d, filters, rows[0], data);
      OutputIsWanted(q, d, filters, rows[1..], data);
      OutsOfOneMore(q, d, data, rows[0], Wanted(filters, rows[0]), WantedRows(filters, rows[1..]));
    }
  }

  lemma EntryFaithful(q: MetricQuery, d: Description, filters: Arg<RawFilter>, data: Data, b: Row)
    requires QueryFacts(q, d, filters)
    ensures Faithful(Shape(Project(q.select, Around(d, data, q.base, b, LinkedTables(q.metrics))), q), q, d, data, b)
  {
    var tables := LinkedTables(q.metrics);
    var row := Project(q.select, Around(d, data, q.base, b, tables));
    forall i | 0 <= i < |q.metrics|
      ensures q.metrics[i].name in Readings(row, q.metrics)
      ensures Readings(row, q.metrics)[q.metrics[i].name] == DirectReading(q.metrics[i], d, data, b)
    {
      assert q.metrics[i] in q.metrics;
      ReadingsAt(row, q.metrics, i);
      ReadingPreserved(q, d, data, b, tables, i);
    }
    forall n | n in Readings(row, q.metrics) ensures exists i :: 0 <= i < |q.metrics| && q.metrics[i].name == n {
      ReadingsOnly(row, q.metrics, n);
    }
  }

  // ---- key columns --------------------------------------------------------------------------------------------

  lemma KeyColumnsShown(q: MetricQuery, d: Description, filters: Arg<RawFilter>, data: Data, b: Row)
    requires QueryFacts(q, d, filters) && NoClash(q.metrics, q.key.Columns())
    ensures ShowsKey(Shape(Project(q.select, Around(d, data, q.base, b, LinkedTables(q.metrics))), q), q, b)
  {
    var scope, columns := Around(d, data, q.base, b, LinkedTables(q.metrics)), q.key.Columns();
    forall c | c in columns ensures Field(Project(q.select, scope), c) == Field(b, c) {
      var i :| 0 <= i < |columns| && columns[i] == c;
      forall k | 0 <= k < |q.metrics|
        ensures q.metrics[k].name != columns[i] && q.metrics[k].name + APPLICABLE_SUFFIX != columns[i]
      {
        assert q.metrics[k] in q.metrics;
      }
      KeyColumnShown(q.base, columns, q.metrics, scope, i);
    }
  }
}
