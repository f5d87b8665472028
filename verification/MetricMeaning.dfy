/** What a metric query means: evaluating the compiled query and reshaping its rows gives, for each base
    row that passes the filters, exactly what the definitions say about that row. */
module MetricMeaning {
  import opened Tables
  import opened Semantic
  import opened Expressions
  import opened MetricCompiler

  // ---- evaluating the query ---------------------------------------------------------------------------

  type Data = map<string, seq<Row>>

  function RowsOf(data: Data, table: string): seq<Row> {
    if table in data then data[table] else []
  }

  /** The rows of the joined table for which the condition is true, each added to the scope. */
  function Partners(scope: Scope, table: string, rows: seq<Row>, on: Expr): seq<Scope> {
    if rows == [] then []
    else
      (if Eval(on, scope[table := rows[0]]) == TRUE then [scope[table := rows[0]]] else [])
      + Partners(scope, table, rows[1..], on)
  }

  function LeftJoined(scope: Scope, j: Join, data: Data): (r: seq<Scope>)
    ensures r != []
  {
    var partners := Partners(scope, j.table, RowsOf(data, j.table), j.on);
    if partners == [] then [scope[j.table := map[]]] else partners
  }

  function JoinAll(scope: Scope, joins: seq<Join>, data: Data): seq<Scope>
    decreases |joins|, 0
  {
    if joins == [] then [scope] else JoinEach(LeftJoined(scope, joins[0], data), joins[1..], data)
  }

  function JoinEach(scopes: seq<Scope>, joins: seq<Join>, data: Data): seq<Scope>
    decreases |joins|, 1, |scopes|
  {
    if scopes == [] then [] else JoinAll(scopes[0], joins, data) + JoinEach(scopes[1..], joins, data)
  }

  predicate Passes(where: seq<Expr>, scope: Scope) {
    forall e :: e in where ==> Eval(e, scope) == TRUE
  }

  /** The names of the result's columns. */
  function Aliases(select: seq<SelectItem>): seq<string> {
    seq(|select|, i requires 0 <= i < |select| => select[i].alias)
  }

  /** A result row as a dictionary. The executor refuses results that repeat a column name before it makes
      any, so in a row that is returned no column overwrites another. */
  function Project(select: seq<SelectItem>, scope: Scope): Row {
    if select == [] then map[]
    else
      var n := |select| - 1;
      Project(select[..n], scope)[select[n].alias := Eval(select[n].expr, scope)]
  }

  /** A result row with the values it is ordered by. */
  datatype Out = Out(row: Row, keys: seq<Value>)

  function OrderKey(item: OrderItem, scope: Scope, row: Row): Value {
    match item.target
    case ByColumn(table, column) => Cell(scope, table, column)
    case ByAlias(alias) => Field(row, alias)
  }

  function OutOf(q: MetricQuery, scope: Scope): Out {
    var row := Project(q.select, scope);
    Out(row, seq(|q.order|, i requires 0 <= i < |q.order| => OrderKey(q.order[i], scope, row)))
  }

  function Kept(q: MetricQuery, scopes: seq<Scope>): seq<Out> {
    if scopes == [] then []
    else (if Passes(q.where, scopes[0]) then [OutOf(q, scopes[0])] else []) + Kept(q, scopes[1..])
  }

  /** The result before ordering, base row by base row. */
  function Output(q: MetricQuery, rows: seq<Row>, data: Data): seq<Out> {
    if rows == [] then [] else Kept(q, JoinAll(map[q.base := rows[0]], q.joins, data)) + Output(q, rows[1..], data)
  }

  // ---- reshaping --------------------------------------------------------------------------------------

  const NOT_APPLICABLE := "\U{4E0D}\U{9002}\U{7528}"
  const MISSING_INPUT := "\U{6240}\U{9700}\U{6570}\U{636E}\U{7F3A}\U{5931}"

  datatype Reading = Reading(value: Value, unit: string, applicable: bool, reason: Option<string>)
  datatype Entry = Entry(columns: map<string, Value>, metrics: map<string, Reading>)

  function ReadingOf(m: MetricSpec, value: Value, applicable: bool): Reading {
    Reading(if applicable then value else Null, m.unit, applicable,
            if !applicable then Some(if m.reason.Some? then m.reason.value else NOT_APPLICABLE)
            else if value.Null? then Some(MISSING_INPUT) else None)
  }

  function Shape(row: Row, q: MetricQuery): Entry {
    Entry(map c | c in q.key.Columns() :: Field(row, c), Readings(row, q.metrics))
  }

  function Readings(row: Row, ms: seq<MetricSpec>): map<string, Reading> {
    if ms == [] then map[]
    else
      var m := ms[|ms| - 1];
      var reading := ReadingOf(m, Field(row, m.name), Truthy(Field(row, m.name + APPLICABLE_SUFFIX)));
      Readings(row, ms[..|ms| - 1])[m.name := reading]
  }

  function ShapeAll(rows: seq<Row>, q: MetricQuery): seq<Entry> {
    seq(|rows|, i requires 0 <= i < |rows| => Shape(rows[i], q))
  }

  method ShapeRows(rows: seq<Row>, q: MetricQuery) returns (shaped: seq<Entry>)
    ensures shaped == ShapeAll(rows, q)
  {
    shaped := [];
    for n := 0 to |rows|
      invariant |shaped| == n && forall i :: 0 <= i < n ==> shaped[i] == Shape(rows[i], q)
    {
      var row := rows[n];
      var values: map<string, Reading> := map[];
      for k := 0 to |q.metrics|
        invariant values == Readings(row, q.metrics[..k])
      {
        var metric := q.metrics[k];
        var applicable := Truthy(Field(row, metric.name + APPLICABLE_SUFFIX));
        var value := if applicable then Field(row, metric.name) else Null;
        var reason := None;
        if !applicable {
          reason := Some(if metric.reason.Some? then metric.reason.value else NOT_APPLICABLE);
        } else if value.Null? {
          reason := Some(MISSING_INPUT);
        }
        assert q.metrics[..k + 1][..k] == q.metrics[..k];
        values := values[metric.name := Reading(value, metric.unit, applicable, reason)];
      }
      assert q.metrics[..|q.metrics|] == q.metrics;
      shaped := shaped + [Entry(map c | c in q.key.Columns() :: Field(row, c), values)];
    }
  }

  // ---- what the definitions say about one base row ------------------------------------------------------

  /** The two rows agree on these columns, on values that are there. */
  predicate Matches(a: Row, b: Row, columns: seq<string>) {
    forall c :: c in columns ==> !Field(a, c).Null? && Field(a, c) == Field(b, c)
  }

  function FirstMatch(b: Row, rows: seq<Row>, columns: seq<string>): Row {
    if rows == [] then map[] else if Matches(b, rows[0], columns) then rows[0] else FirstMatch(b, rows[1..], columns)
  }

  /** The linked row that belongs to a base row, or nothing. */
  function Partner(d: Description, data: Data, base: string, b: Row, table: string): Row {
    var link := FindLink(d.links, base, table);
    if link.Some? then FirstMatch(b, RowsOf(data, table), link.value.on) else map[]
  }

  function Around(d: Description, data: Data, base: string, b: Row, tables: set<string>): Scope {
    (map t | t in tables :: Partner(d, data, base, b, t))[base := b]
  }

  predicate Applies(m: MetricSpec, scope: Scope) {
    m.condition.Some? ==> Truthy(Meaning(m.condition.value, m.base, scope))
  }

  /** A value only where the condition is true; unknown counts as not applicable. */
  function DirectReading(m: MetricSpec, d: Description, data: Data, b: Row): Reading {
    var scope := Around(d, data, m.base, b, m.linked);
    ReadingOf(m, Meaning(m.formula, m.base, scope), Applies(m, scope))
  }

  /** The value of a JSON literal. */
  function ValueOf(v: Json): Value {
    match v
    case JInt(i) => Num(i as real)
    case JFloat(x) => Num(x)
    case JText(s) => Text(s)
    case _ => Null
  }

  predicate Less(a: Value, b: Value) {
    LessValue(a, b) == TRUE
  }

  predicate Comparable(a: Value, b: Value) {
    (a.Num? && b.Num?) || (a.Text? && b.Text?)
  }

  /** The rows a filter selects: never one whose value is missing. */
  predicate Selects(f: RawFilter, v: Value)
    requires f.RawFilter?
  {
    match f.value
    case Many(vs) =>
      && !v.Null?
      && if f.op == "in" then exists i :: 0 <= i < |vs| && v == ValueOf(vs[i])
         else forall i :: 0 <= i < |vs| ==> v != ValueOf(vs[i])
    case Single(j) =>
      var w := ValueOf(j);
      if f.op == "eq" then v == w
      else if f.op == "neq" then !v.Null? && v != w
      else Comparable(v, w) && if f.op == "gt" then Less(w, v) else if f.op == "gte" then !Less(v, w)
                               else if f.op == "lt" then Less(v, w) else !Less(w, v)
  }

  predicate Wanted(filters: Arg<RawFilter>, b: Row)
    requires filters.List? ==> forall f :: f in filters.items ==> f.RawFilter?
  {
    filters.List? ==> forall f :: f in filters.items ==> Selects(f, Field(b, f.column))
  }

  // ---- joins --------------------------------------------------------------------------------------------

  lemma EvalColumn(table: string, column: string, scope: Scope)
    ensures Eval(ColumnOf(table, column), scope) == Cell(scope, table, column)
  {
  }

  lemma EvalTwo(op: Op, a: Expr, b: Expr, scope: Scope)
    ensures Eval(Operate(op, [a, b]), scope) == Apply(op, [Eval(a, scope), Eval(b, scope)])
  {
    var es := [a, b];
    assert es[1..] == [b] && [b][1..] == [];
    assert EvalAll(es, scope) == [Eval(a, scope), Eval(b, scope)];
  }

  lemma EvalOne(op: Op, a: Expr, scope: Scope)
    ensures Eval(Operate(op, [a]), scope) == Apply(op, [Eval(a, scope)])
  {
    assert [a][1..] == [];
    assert EvalAll([a], scope) == [Eval(a, scope)];
  }

  lemma ColumnsEqual(base: string, other: string, column: string, scope: Scope, b: Row, r: Row)
    requires base in scope && scope[base] == b && other in scope && scope[other] == r
    ensures var v := Eval(Operate(Eq, [ColumnOf(base, column), ColumnOf(other, column)]), scope);
      (v.Bool? || v.Null?) && (v == TRUE <==> Matches(b, r, [column]))
  {
    EvalTwo(Eq, ColumnOf(base, column), ColumnOf(other, column), scope);
    EvalColumn(base, column, scope);
    EvalColumn(other, column, scope);
    assert column in [column];
  }

  lemma BothTrue(a: Expr, b: Expr, scope: Scope)
    requires var v, w := Eval(a, scope), Eval(b, scope); (v.Bool? || v.Null?) && (w.Bool? || w.Null?)
    ensures var v := Eval(Operate(And, [a, b]), scope);
      (v.Bool? || v.Null?) && (v == TRUE <==> Eval(a, scope) == TRUE && Eval(b, scope) == TRUE)
  {
    EvalTwo(And, a, b, scope);
  }

  lemma MatchesLast(b: Row, r: Row, columns: seq<string>)
    requires columns != []
    ensures var n := |columns| - 1;
      Matches(b, r, columns) <==> Matches(b, r, columns[..n]) && Matches(b, r, [columns[n]])
  {
    assert columns == columns[..|columns| - 1] + [columns[|columns| - 1]];
  }

  /** The join condition is true exactly for rows that agree on every column of the link. */
  lemma {:induction false} JoinCondition(base: string, other: string, columns: seq<string>, scope: Scope, b: Row,
                                         r: Row)
    requires columns != [] && base != other && base in scope && scope[base] == b && other in scope && scope[other] == r
    ensures Eval(AllEqual(base, other, columns), scope) == TRUE <==> Matches(b, r, columns)
    ensures var v := Eval(AllEqual(base, other, columns), scope); v.Bool? || v.Null?
  {
    var n := |columns| - 1;
    var last := columns[n];
    ColumnsEqual(base, other, last, scope, b, r);
    MatchesLast(b, r, columns);
    if n > 0 {
      var eq := Operate(Eq, [ColumnOf(base, last), ColumnOf(other, last)]);
      JoinCondition(base, other, columns[..n], scope, b, r);
      BothTrue(AllEqual(base, other, columns[..n]), eq, scope);
    }
  }

  function MatchCount(b: Row, rows: seq<Row>, columns: seq<string>): nat {
    if rows == [] then 0 else (if Matches(b, rows[0], columns) then 1 else 0) + MatchCount(b, rows[1..], columns)
  }

  lemma {:induction false} PartnersCounted(scope: Scope, base: string, j: Join, rows: seq<Row>, columns: seq<string>,
                                           b: Row)
    requires columns != [] && base != j.table && base in scope && scope[base] == b
    requires j.on == AllEqual(base, j.table, columns)
    ensures |Partners(scope, j.table, rows, j.on)| == MatchCount(b, rows, columns)
    ensures MatchCount(b, rows, columns) <= 1 ==>
      Partners(scope, j.table, rows, j.on)
      == if MatchCount(b, rows, columns) == 0 then [] else [scope[j.table := FirstMatch(b, rows, columns)]]
    ensures MatchCount(b, rows, columns) == 0 ==> FirstMatch(b, rows, columns) == map[]
    ensures forall p :: p in Partners(scope, j.table, rows, j.on) ==> base in p && p[base] == b
  {
    if rows != [] {
      JoinCondition(base, j.table, columns, scope[j.table := rows[0]], b, rows[0]);
      PartnersCounted(scope, base, j, rows[1..], columns, b);
    }
  }

  predicate Linked(d: Description, base: string, j: Join) {
    JoinFor(d, base, j) && j.table != base
  }

  function LinkColumns(d: Description, base: string, table: string): seq<string> {
    var link := FindLink(d.links, base, table);
    if link.Some? then link.value.on else []
  }

  /** The linked table holds at most one match for the base row. */
  predicate MatchedOnce(d: Description, data: Data, base: string, b: Row, table: string) {
    MatchCount(b, RowsOf(data, table), LinkColumns(d, base, table)) <= 1
  }

  /** Left joins add to a base row that each table matches at most once its one partner of each. */
  function WithPartners(d: Description, data: Data, base: string, b: Row, joins: seq<Join>, scope: Scope): Scope {
    if joins == [] then scope
    else WithPartners(d, data, base, b, joins[1..], scope[joins[0].table := Partner(d, data, base, b, joins[0].table)])
  }

  lemma {:induction false} JoinsFindPartners(d: Description, data: Data, base: string, b: Row, joins: seq<Join>,
                                             scope: Scope)
    requires base in scope && scope[base] == b
    requires forall j :: j in joins ==> Linked(d, base, j) && MatchedOnce(d, data, base, b, j.table)
    ensures JoinAll(scope, joins, data) == [WithPartners(d, data, base, b, joins, scope)]
  {
    if joins != [] {
      var j := joins[0];
      var columns, rows := LinkColumns(d, base, j.table), RowsOf(data, j.table);
      assert j in joins && MatchedOnce(d, data, base, b, j.table);
      PartnersCounted(scope, base, j, rows, columns, b);
      var next := scope[j.table := Partner(d, data, base, b, j.table)];
      assert LeftJoined(scope, j, data) == [next];
      JoinsFindPartners(d, data, base, b, joins[1..], next);
      assert JoinEach([next], joins[1..], data) == JoinAll(next, joins[1..], data) + JoinEach([], joins[1..], data);
    }
  }

  lemma {:induction false} PartnersAround(d: Description, data: Data, base: string, b: Row, joins: seq<Join>,
                                          scope: Scope, t: string)
    requires forall j :: j in joins ==> j.table != base
    ensures var after := WithPartners(d, data, base, b, joins, scope);
      if exists i :: 0 <= i < |joins| && joins[i].table == t
      then t in after && after[t] == Partner(d, data, base, b, t)
      else (t in after <==> t in scope) && (t in scope ==> after[t] == scope[t])
  {
    if joins != [] {
      var next := scope[joins[0].table := Partner(d, data, base, b, joins[0].table)];
      PartnersAround(d, data, base, b, joins[1..], next, t);
      if exists i :: 0 <= i < |joins| && joins[i].table == t {
        var i :| 0 <= i < |joins| && joins[i].table == t;
        assert i > 0 ==> joins[1..][i - 1].table == t;
      }
      if exists i :: 0 <= i < |joins[1..]| && joins[1..][i].table == t {
        var i :| 0 <= i < |joins[1..]| && joins[1..][i].table == t;
        assert joins[i + 1].table == t;
      }
    }
  }

  lemma JoinsGiveSurroundings(d: Description, data: Data, base: string, b: Row, joins: seq<Join>, tables: set<string>)
    requires JoinsFor(d, base, joins, tables) && base !in tables
    requires forall t :: t in tables ==> MatchedOnce(d, data, base, b, t)
    ensures JoinAll(map[base := b], joins, data) == [Around(d, data, base, b, tables)]
  {
    JoinsLinked(d, base, joins, tables);
    JoinsFindPartners(d, data, base, b, joins, map[base := b]);
    PartnersAreAround(d, data, base, b, joins, tables);
  }

  lemma JoinsLinked(d: Description, base: string, joins: seq<Join>, tables: set<string>)
    requires JoinsFor(d, base, joins, tables) && base !in tables
    ensures forall j :: j in joins ==> Linked(d, base, j) && j.table in tables
    ensures forall t :: t in tables ==> exists j :: j in joins && j.table == t
  {
  }

  lemma PartnersAreAround(d: Description, data: Data, base: string, b: Row, joins: seq<Join>, tables: set<string>)
    requires JoinsFor(d, base, joins, tables) && base !in tables && forall j :: j in joins ==> j.table != base
    ensures WithPartners(d, data, base, b, joins, map[base := b]) == Around(d, data, base, b, tables)
  {
    var after, around := WithPartners(d, data, base, b, joins, map[base := b]), Around(d, data, base, b, tables);
    forall t ensures (t in after <==> t in around) && (t in around ==> after[t] == around[t]) {
      PartnersAround(d, data, base, b, joins, map[base := b], t);
    }
    assert after == around;
  }

  /** Whatever the joins add, the base row stays in every joined row. */
  lemma {:induction false} JoinsKeepBase(d: Description, data: Data, base: string, b: Row, joins: seq<Join>,
                                         scope: Scope)
    requires base in scope && scope[base] == b && forall j :: j in joins ==> Linked(d, base, j)
    ensures forall s :: s in JoinAll(scope, joins, data) ==> base in s && s[base] == b
    decreases |joins|, 0
  {
    if joins != [] {
      var j := joins[0];
      assert j in joins && Linked(d, base, j);
      PartnersCounted(scope, base, j, RowsOf(data, j.table), LinkColumns(d, base, j.table), b);
      EachKeepsBase(d, data, base, b, joins[1..], LeftJoined(scope, j, data));
    }
  }

  lemma {:induction false} EachKeepsBase(d: Description, data: Data, base: string, b: Row, joins: seq<Join>,
                                         scopes: seq<Scope>)
    requires forall s :: s in scopes ==> base in s && s[base] == b
    requires forall j :: j in joins ==> Linked(d, base, j)
    ensures forall s :: s in JoinEach(scopes, joins, data) ==> base in s && s[base] == b
    decreases |joins|, 1, |scopes|
  {
    if scopes != [] {
      JoinsKeepBase(d, data, base, b, joins, scopes[0]);
      EachKeepsBase(d, data, base, b, joins, scopes[1..]);
    }
  }

  // ---- how often a base row appears ---------------------------------------------------------------------

  /** The number of joined rows a base row gives: partners multiply, and no partner counts as one. */
  function Fanout(d: Description, data: Data, base: string, b: Row, joins: seq<Join>): (r: nat)
    ensures r >= 1
  {
    if joins == [] then 1
    else
      var n := MatchCount(b, RowsOf(data, joins[0].table), LinkColumns(d, base, joins[0].table));
      var rest := Fanout(d, data, base, b, joins[1..]);
      if n == 0 then rest else Times(n, rest)
  }

  function Times(n: nat, k: nat): (r: nat)
    ensures n >= 1 && k >= 1 ==> r >= n && r >= k
  {
    if n == 0 then 0 else k + Times(n - 1, k)
  }

  lemma {:induction false} JoinsFanOut(d: Description, data: Data, base: string, b: Row, joins: seq<Join>, scope: Scope)
    requires base in scope && scope[base] == b && forall j :: j in joins ==> Linked(d, base, j)
    ensures |JoinAll(scope, joins, data)| == Fanout(d, data, base, b, joins)
    decreases |joins|, 0
  {
    if joins != [] {
      var j := joins[0];
      assert j in joins && Linked(d, base, j);
      PartnersCounted(scope, base, j, RowsOf(data, j.table), LinkColumns(d, base, j.table), b);
      EachFansOut(d, data, base, b, joins[1..], LeftJoined(scope, j, data));
      var rest := Fanout(d, data, base, b, joins[1..]);
      assert Times(1, rest) == rest + Times(0, rest);
    }
  }

  lemma {:induction false} EachFansOut(d: Description, data: Data, base: string, b: Row, joins: seq<Join>,
                                       scopes: seq<Scope>)
    requires forall s :: s in scopes ==> base in s && s[base] == b
    requires forall j :: j in joins ==> Linked(d, base, j)
    ensures |JoinEach(scopes, joins, data)| == Times(|scopes|, Fanout(d, data, base, b, joins))
    decreases |joins|, 1, |scopes|
  {
    if scopes != [] {
      JoinsFanOut(d, data, base, b, joins, scopes[0]);
      EachFansOut(d, data, base, b, joins, scopes[1..]);
    }
  }

  lemma {:induction false} FanoutIsOneIff(d: Description, data: Data, base: string, b: Row, joins: seq<Join>)
    ensures Fanout(d, data, base, b, joins) == 1 <==>
      forall j :: j in joins ==> MatchedOnce(d, data, base, b, j.table)
  {
    if joins != [] {
      FanoutIsOneIff(d, data, base, b, joins[1..]);
      var rest := Fanout(d, data, base, b, joins[1..]);
      assert Times(1, rest) == rest + Times(0, rest);
      assert joins == [joins[0]] + joins[1..];
    }
  }

  /** No base row is ever lost by the joins, and it appears exactly once if and only if each linked table
      holds at most one match for it. */
  lemma AppearsOnceIff(d: Description, data: Data, base: string, b: Row, joins: seq<Join>, tables: set<string>)
    requires JoinsFor(d, base, joins, tables) && base !in tables
    ensures |JoinAll(map[base := b], joins, data)| >= 1
    ensures |JoinAll(map[base := b], joins, data)| == 1 <==>
      forall t :: t in tables ==> MatchedOnce(d, data, base, b, t)
  {
    JoinsLinked(d, base, joins, tables);
    JoinsFanOut(d, data, base, b, joins, map[base := b]);
    FanoutIsOneIff(d, data, base, b, joins);
  }
}
