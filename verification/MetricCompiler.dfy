/** Metric definitions compiled into one query: selected columns, left joins, filters and order. */
module MetricCompiler {
  import opened Tables
  import opened Semantic
  import opened Expressions

  const APPLICABLE_SUFFIX := "__applicable"
  const MAX_METRICS := 10
  const MAX_FILTERS := 10
  const MAX_IN_VALUES := 50

  // ---- definitions ------------------------------------------------------------------------------------

  datatype Source = Unparsable | Parsed(e: Expr)

  /** One row of the metric table, its texts trimmed and blank ones absent. */
  datatype MetricRow = MetricRow(
    name: Option<string>, queryable: bool, kind: Option<string>, base: Option<string>,
    formula: Option<Source>, condition: Option<Source>, unit: Option<string>, reason: Option<string>)

  datatype MetricSpec = MetricSpec(
    name: string, unit: string, base: string, value: Expr, applicable: Option<Expr>, reason: Option<string>,
    linked: set<string>, formula: Expr, condition: Option<Expr>)

  predicate EndsWith(s: string, suffix: string) {
    |suffix| <= |s| && s[|s| - |suffix|..] == suffix
  }

  /** Every node of the source is allowed. */
  predicate Admissible(source: Source, base: string, d: Description) {
    source.Parsed? && forall t :: t in Tags(source.e) ==> TagOk(t, base, d)
  }

  /** A row that defines a metric. */
  predicate Definable(name: string, row: MetricRow, d: Description) {
    && ValidIdentifier(name) && !EndsWith(name, APPLICABLE_SUFFIX)
    && row.kind == Some("row") && row.base.Some? && row.formula.Some?
    && FindTable(d.tables, row.base.value).Some?
    && FindKey(d.keys, row.base.value).Some? && name !in FindKey(d.keys, row.base.value).value.Columns()
    && Admissible(row.formula.value, row.base.value, d)
    && (row.condition.Some? ==> Admissible(row.condition.value, row.base.value, d))
  }

  /** What a compiled metric guarantees its query. */
  predicate Compiled(m: MetricSpec, d: Description) {
    && ValidIdentifier(m.name) && !EndsWith(m.name, APPLICABLE_SUFFIX)
    && FindTable(d.tables, m.base).Some?
    && FindKey(d.keys, m.base).Some? && m.name !in FindKey(d.keys, m.base).value.Columns()
    && m.value == Qualify(m.formula, m.base)
    && m.applicable == (if m.condition.Some? then Some(Qualify(m.condition.value, m.base)) else None)
    && m.linked == LinkedBy(Tags(m.formula), m.base)
                   + (if m.condition.Some? then LinkedBy(Tags(m.condition.value), m.base) else {})
    && forall t :: t in m.linked ==> t != m.base && FindLink(d.links, m.base, t).Some?
  }

  /** The metric is this row's: its base table, formula, condition, reason and unit. */
  predicate Carries(m: MetricSpec, row: MetricRow) {
    && row.base == Some(m.base) && m.reason == row.reason
    && row.formula.Some? && row.formula.value.Parsed? && m.formula == row.formula.value.e
    && (if row.condition.Some? then row.condition.value.Parsed? && m.condition == Some(row.condition.value.e)
        else m.condition.None?)
    && m.unit == (if row.unit.Some? then row.unit.value else "")
  }

  /** Checks and qualifies one expression on a copy of its nodes. */
  method CompileExpression(source: Source, base: string, d: Description) returns (r: Option<(Expr, set<string>)>)
    ensures r.Some? <==> Admissible(source, base, d)
    ensures r.Some? ==> r.value == (Qualify(source.e, base), LinkedBy(Tags(source.e), base))
    ensures r.Some? ==> forall t :: t in r.value.1 ==> t != base && FindLink(d.links, base, t).Some?
  {
    if source.Unparsable? {
      return None;
    }
    var before := Tags(source.e);
    var tags := new Tag[|before|](i requires 0 <= i < |before| => before[i]);
    assert tags[..] == before;
    var ok, linked := Expression(tags, base, d);
    if !ok {
      var i :| 0 <= i < |before| && !TagOk(before[i], base, d);
      assert before[i] in Tags(source.e);
      return None;
    }
    RetagQualifies(source.e, tags[..], base);
    forall t | t in linked ensures t != base && FindLink(d.links, base, t).Some? {
      var i :|
        0 <= i < |before| && before[i].Column? && TableOf(before[i], base) != base && t == TableOf(before[i], base);
      assert TagOk(before[i], base, d);
    }
    r := Some((Retag(source.e, tags[..]), linked));
  }

  method CompileMetric(name: string, row: MetricRow, d: Description) returns (r: Option<MetricSpec>)
    ensures r.Some? <==> Definable(name, row, d)
    ensures r.Some? ==> Compiled(r.value, d) && r.value.name == name && Carries(r.value, row)
  {
    if !ValidIdentifier(name) || EndsWith(name, APPLICABLE_SUFFIX) {
      return None;
    }
    if row.kind != Some("row") || row.base.None? || row.formula.None? {
      return None;
    }
    var base := row.base.value;
    var key := FindKey(d.keys, base);
    if FindTable(d.tables, base).None? || key.None? {
      return None;
    }
    if name in key.value.Columns() {
      return None;
    }
    var value := CompileExpression(row.formula.value, base, d);
    if value.None? {
      return None;
    }
    var linked := value.value.1;
    var applicable, condition := None, None;
    if row.condition.Some? {
      var compiled := CompileExpression(row.condition.value, base, d);
      if compiled.None? {
        return None;
      }
      applicable, condition := Some(compiled.value.0), Some(row.condition.value.e);
      linked := linked + compiled.value.1;
    }
    var unit := if row.unit.Some? then row.unit.value else "";
    r := Some(MetricSpec(name, unit, base, value.value.0, applicable, row.reason, linked, row.formula.value.e,
                         condition));
  }

  predicate Offered(row: MetricRow, name: string, d: Description) {
    row.name == Some(name) && name != "" && row.queryable && Definable(name, row, d)
  }

  /** The last row that offers the name. */
  function LastOffer(rows: seq<MetricRow>, name: string, d: Description): Option<MetricRow> {
    if rows == [] then None
    else
      var last := rows[|rows| - 1];
      if Offered(last, name, d) then Some(last) else LastOffer(rows[..|rows| - 1], name, d)
  }

  lemma {:induction false} LastOfferIs(rows: seq<MetricRow>, name: string, d: Description) returns (i: nat)
    ensures LastOffer(rows, name, d).None? ==> forall k :: 0 <= k < |rows| ==> !Offered(rows[k], name, d)
    ensures LastOffer(rows, name, d).Some? ==>
      && i < |rows| && LastOffer(rows, name, d) == Some(rows[i]) && Offered(rows[i], name, d)
      && forall k :: i < k < |rows| ==> !Offered(rows[k], name, d)
  {
    i := 0;
    if rows != [] {
      var n := |rows| - 1;
      if Offered(rows[n], name, d) {
        i := n;
      } else {
        i := LastOfferIs(rows[..n], name, d);
      }
    }
  }

  /** The metric offered under this name, if any row offers one. */
  predicate Stands(found: map<string, MetricSpec>, name: string, offer: Option<MetricRow>, d: Description) {
    if offer.None? then name !in found
    else name in found && found[name].name == name && Compiled(found[name], d) && Carries(found[name], offer.value)
  }

  /** A row that does not define a metric is passed over without harm to the others: a name stands for the last
      row that offers it. */
  method QueryableMetrics(rows: seq<MetricRow>, d: Description) returns (found: map<string, MetricSpec>)
    ensures forall n :: Stands(found, n, LastOffer(rows, n, d), d)
  {
    found := map[];
    for k := 0 to |rows|
      invariant forall n :: Stands(found, n, LastOffer(rows[..k], n, d), d)
    {
      var row := rows[k];
      assert rows[..k + 1][..k] == rows[..k];
      if row.name.None? || row.name.value == "" || !row.queryable {
        continue;
      }
      var metric := CompileMetric(row.name.value, row, d);
      if metric.Some? {
        found := found[row.name.value := metric.value];
      }
    }
    assert rows[..|rows|] == rows;
  }

  // ---- requests ---------------------------------------------------------------------------------------

  /** A request argument: left out, of the wrong kind, or a list. */
  datatype Arg<+T> = Absent | Invalid | List(items: seq<T>)

  datatype Json = JBool(b: bool) | JInt(i: int) | JFloat(x: real) | JText(s: string) | JOther

  datatype Operand = Single(v: Json) | Many(vs: seq<Json>)

  datatype RawFilter = BadFilter | RawFilter(column: string, op: string, value: Operand)

  /** `direction` is None when neither "asc" nor "desc" (the default is "asc"). */
  datatype RawOrder = BadOrder | RawOrder(name: string, descending: Option<bool>)

  // ---- the query --------------------------------------------------------------------------------------

  datatype SelectItem = SelectItem(alias: string, expr: Expr)
  datatype Join = Join(table: string, on: Expr)
  datatype Target = ByColumn(table: string, column: string) | ByAlias(alias: string)
  datatype OrderItem = OrderItem(target: Target, descending: bool)

  datatype MetricQuery = MetricQuery(
    select: seq<SelectItem>, base: string, joins: seq<Join>, where: seq<Expr>, order: seq<OrderItem>,
    metrics: seq<MetricSpec>, key: KeySpec)

  function ColumnOf(table: string, name: string): Expr {
    Node(Column("", table, name), [])
  }

  function Literal(v: Value): Expr {
    Node(Op(Lit(v)), [])
  }

  function Operate(op: Op, args: seq<Expr>): Expr {
    Node(Op(op), args)
  }

  function ApplicableExpr(m: MetricSpec): Expr {
    if m.applicable.None? then Literal(TRUE)
    else Operate(Coalesce, [Operate(Paren, [m.applicable.value]), Literal(FALSE)])
  }

  function ValueExpr(m: MetricSpec): Expr {
    if m.applicable.None? then m.value
    else Operate(Case, [ApplicableExpr(m), Operate(Paren, [m.value])])
  }

  function KeyItems(base: string, columns: seq<string>): seq<SelectItem> {
    seq(|columns|, i requires 0 <= i < |columns| => SelectItem(columns[i], ColumnOf(base, columns[i])))
  }

  function MetricItems(ms: seq<MetricSpec>): seq<SelectItem> {
    if ms == [] then []
    else
      var m := ms[|ms| - 1];
      MetricItems(ms[..|ms| - 1])
      + [SelectItem(m.name, ValueExpr(m)), SelectItem(m.name + APPLICABLE_SUFFIX, ApplicableExpr(m))]
  }

  /** Column equalities joined by AND, nested to the left. */
  function AllEqual(base: string, other: string, columns: seq<string>): Expr
    requires columns != []
  {
    var last := columns[|columns| - 1];
    var eq := Operate(Eq, [ColumnOf(base, last), ColumnOf(other, last)]);
    if |columns| == 1 then eq else Operate(And, [AllEqual(base, other, columns[..|columns| - 1]), eq])
  }

  predicate JoinFor(d: Description, base: string, j: Join) {
    var link := FindLink(d.links, base, j.table);
    link.Some? && link.value.on != [] && j.on == AllEqual(base, j.table, link.value.on)
  }

  /** One left join for each linked table, in some order. */
  ghost predicate JoinsFor(d: Description, base: string, joins: seq<Join>, tables: set<string>) {
    && (forall j :: j in joins ==> JoinFor(d, base, j))
    && (forall t :: t in tables <==> exists i :: 0 <= i < |joins| && joins[i].table == t)
    && (forall i, k :: 0 <= i < k < |joins| ==> joins[i].table != joins[k].table)
  }

  // ---- filters ----------------------------------------------------------------------------------------

  /** A literal for a column of this type; negative numbers become a negated literal. */
  function LiteralFor(v: Json, kind: ColumnType): Option<Expr> {
    match v
    case JText(s) => if kind.Textual? && |s| <= 200 then Some(Literal(Text(s))) else None
    case JInt(i) => if kind.Textual? then None else Some(NumberLiteral(i as real))
    case JFloat(x) => if kind.Textual? || kind.Integer? then None else Some(NumberLiteral(x))
    case _ => None
  }

  function NumberLiteral(x: real): Expr {
    if x < 0.0 then Operate(Neg, [Literal(Num(-x))]) else Literal(Num(x))
  }

  function KindOf(d: Description, base: string, column: string): ColumnType {
    var t := FindTable(d.tables, base);
    if t.Some? && FindColumn(t.value.columns, column).Some? then FindColumn(t.value.columns, column).value.kind
    else Unsupported(column)
  }

  function Comparison(op: string): Option<Op> {
    if op == "eq" then Some(Eq) else if op == "neq" then Some(Neq)
    else if op == "gt" then Some(Gt) else if op == "gte" then Some(Gte)
    else if op == "lt" then Some(Lt) else if op == "lte" then Some(Lte)
    else None
  }

  predicate FilterOk(f: RawFilter, d: Description, base: string, key: KeySpec) {
    && f.RawFilter? && f.column in key.Columns()
    && var kind := KindOf(d, base, f.column);
       if f.op in ["in", "not_in"] then
         f.value.Many? && 1 <= |f.value.vs| <= MAX_IN_VALUES && forall v :: v in f.value.vs ==>
           LiteralFor(v, kind).Some?
       else
         Comparison(f.op).Some? && f.value.Single? && LiteralFor(f.value.v, kind).Some?
  }

  function LiteralsFor(vs: seq<Json>, kind: ColumnType): (r: seq<Expr>)
    requires forall v :: v in vs ==> LiteralFor(v, kind).Some?
    ensures |r| == |vs|
  {
    if vs == [] then [] else [LiteralFor(vs[0], kind).value] + LiteralsFor(vs[1..], kind)
  }

  function FilterExpr(f: RawFilter, d: Description, base: string, key: KeySpec): Expr
    requires FilterOk(f, d, base, key)
  {
    var kind, left := KindOf(d, base, f.column), ColumnOf(base, f.column);
    if f.op in ["in", "not_in"] then
      var chosen := Operate(In, [left] + LiteralsFor(f.value.vs, kind));
      if f.op == "not_in" then Operate(Not, [chosen]) else chosen
    else Operate(Comparison(f.op).value, [left, LiteralFor(f.value.v, kind).value])
  }

  predicate FiltersOk(filters: Arg<RawFilter>, d: Description, base: string, key: KeySpec) {
    match filters
    case Absent => true
    case Invalid => false
    case List(items) => |items| <= MAX_FILTERS && forall f :: f in items ==> FilterOk(f, d, base, key)
  }

  method BuildWhere(filters: Arg<RawFilter>, d: Description, base: string, key: KeySpec) returns (r: Option<seq<Expr>>)
    ensures r.Some? <==> FiltersOk(filters, d, base, key)
    ensures r.Some? && filters.List? ==>
      |r.value| == |filters.items| && forall i :: 0 <= i < |r.value| ==>
        r.value[i] == FilterExpr(filters.items[i], d, base, key)
    ensures r.Some? && !filters.List? ==> r.value == []
  {
    if filters.Absent? {
      return Some([]);
    }
    if filters.Invalid? || |filters.items| > MAX_FILTERS {
      return None;
    }
    var where := [];
    for n := 0 to |filters.items|
      invariant |where| == n
      invariant forall i :: 0 <= i < n ==>
        FilterOk(filters.items[i], d, base, key) && where[i] == FilterExpr(filters.items[i], d, base, key)
    {
      var item := filters.items[n];
      if !FilterOk(item, d, base, key) {
        assert item in filters.items;
        return None;
      }
      where := where + [FilterExpr(item, d, base, key)];
    }
    r := Some(where);
  }

  // ---- order ------------------------------------------------------------------------------------------

  predicate OrderEntryOk(o: RawOrder, key: KeySpec, metrics: seq<string>) {
    o.RawOrder? && o.descending.Some? && (o.name in key.Columns() || o.name in metrics)
  }

  predicate OrderOk(order: Arg<RawOrder>, key: KeySpec, metrics: seq<string>) {
    match order
    case Absent => true
    case Invalid => false
    case List(items) => 1 <= |items| <= 5 && forall o :: o in items ==> OrderEntryOk(o, key, metrics)
  }

  /** A name that is both a key column and a metric means the column. */
  function OrderEntry(o: RawOrder, base: string, key: KeySpec): OrderItem
    requires o.RawOrder? && o.descending.Some?
  {
    OrderItem(if o.name in key.Columns() then ByColumn(base, o.name) else ByAlias(o.name), o.descending.value)
  }

  predicate Asked(items: seq<RawOrder>, column: string) {
    exists i :: 0 <= i < |items| && items[i].RawOrder? && items[i].name == column
  }

  /** The key columns nobody asked for, ascending and in key order. */
  function MissingKeys(items: seq<RawOrder>, base: string, columns: seq<string>): seq<OrderItem> {
    if columns == [] then []
    else
      var n := |columns| - 1;
      MissingKeys(items, base, columns[..n])
      + if Asked(items, columns[n]) then [] else [OrderItem(ByColumn(base, columns[n]), false)]
  }

  function UserOrder(items: seq<RawOrder>, base: string, key: KeySpec): seq<OrderItem>
    requires forall o :: o in items ==> o.RawOrder? && o.descending.Some?
  {
    seq(|items|, i requires 0 <= i < |items| => OrderEntry(items[i], base, key))
  }

  method BuildUserOrder(items: seq<RawOrder>, base: string, key: KeySpec, metrics: seq<string>)
    returns (r: Option<seq<OrderItem>>)
    ensures r.Some? <==> forall o :: o in items ==> OrderEntryOk(o, key, metrics)
    ensures r.Some? ==> r.value == UserOrder(items, base, key)
  {
    var ordered: seq<OrderItem> := [];
    for n := 0 to |items|
      invariant forall i :: 0 <= i < n ==> OrderEntryOk(items[i], key, metrics)
      invariant |ordered| == n && forall i :: 0 <= i < n ==> ordered[i] == OrderEntry(items[i], base, key)
    {
      var item := items[n];
      if item.BadOrder? || item.descending.None? || (item.name !in key.Columns() && item.name !in metrics) {
        assert item in items && !OrderEntryOk(item, key, metrics);
        return None;
      }
      ordered := ordered + [OrderEntry(item, base, key)];
    }
    r := Some(ordered);
  }

  method BuildMissingKeys(items: seq<RawOrder>, base: string, columns: seq<string>) returns (ordered: seq<OrderItem>)
    ensures ordered == MissingKeys(items, base, columns)
  {
    ordered := [];
    for n := 0 to |columns|
      invariant ordered == MissingKeys(items, base, columns[..n])
    {
      var column := columns[n];
      assert columns[..n + 1][..n] == columns[..n];
      if !Asked(items, column) {
        ordered := ordered + [OrderItem(ByColumn(base, column), false)];
      }
    }
    assert columns[..|columns|] == columns;
  }

  method BuildOrder(order: Arg<RawOrder>, base: string, key: KeySpec, metrics: seq<string>)
    returns (r: Option<seq<OrderItem>>)
    ensures r.Some? <==> OrderOk(order, key, metrics)
    ensures r.Some? ==> r.value == OrderOf(order, base, key, metrics)
  {
    if order.Absent? {
      var keys := BuildMissingKeys([], base, key.keys);
      return Some(keys);
    }
    if order.Invalid? || !(1 <= |order.items| <= 5) {
      return None;
    }
    r := BuildUserOrder(order.items, base, key, metrics);
    if r.Some? {
      var keys := BuildMissingKeys(order.items, base, key.keys);
      r := Some(r.value + keys);
    }
  }

  function OrderOf(order: Arg<RawOrder>, base: string, key: KeySpec, metrics: seq<string>): seq<OrderItem>
    requires OrderOk(order, key, metrics)
  {
    var items := if order.List? then order.items else [];
    UserOrder(items, base, key) + MissingKeys(items, base, key.keys)
  }

  // ---- the whole request ------------------------------------------------------------------------------

  predicate Distinct(names: seq<string>) {
    forall i, k :: 0 <= i < k < |names| ==> names[i] != names[k]
  }

  predicate MetricsOk(available: map<string, MetricSpec>, metrics: Arg<string>) {
    && available != map[]
    && metrics.List? && 1 <= |metrics.items| <= MAX_METRICS && Distinct(metrics.items)
    && (forall m :: m in metrics.items ==> m in available)
    && (forall m :: m in metrics.items ==> available[m].base == available[metrics.items[0]].base)
  }

  function NameSet(names: seq<string>): set<string> {
    set n | n in names
  }

  lemma OneMoreName(names: seq<string>, name: string)
    ensures NameSet(names + [name]) == NameSet(names) + {name}
    ensures Distinct(names + [name]) <==> Distinct(names) && name !in names
  {
    var all := names + [name];
    forall n ensures n in all <==> n in names || n == name {
      assert all[|names|] == name;
      if n in names {
        var i :| 0 <= i < |names| && names[i] == n;
        assert all[i] == n;
      }
    }
    if name in names {
      var i :| 0 <= i < |names| && names[i] == name;
      assert all[i] == all[|names|];
    } else if !Distinct(names) {
      var i, k :| 0 <= i < k < |names| && names[i] == names[k];
      assert all[i] == all[k];
    }
  }

  /** len(set(names)) == len(names) exactly when no name is repeated. */
  lemma {:induction false} DistinctBySize(names: seq<string>)
    ensures |NameSet(names)| <= |names|
    ensures |NameSet(names)| == |names| <==> Distinct(names)
  {
    if names == [] {
      assert NameSet(names) == {};
    } else {
      var k := |names| - 1;
      DistinctBySize(names[..k]);
      OneMoreName(names[..k], names[k]);
      assert names[..k] + [names[k]] == names;
    }
  }

  /** An accepted request and the query built for it. */
  ghost predicate Built(d: Description, available: map<string, MetricSpec>, metrics: Arg<string>,
                  filters: Arg<RawFilter>, order: Arg<RawOrder>, q: MetricQuery)
    requires MetricsOk(available, metrics)
  {
    && |q.metrics| == |metrics.items|
    && (forall i :: 0 <= i < |q.metrics| ==> q.metrics[i] == available[metrics.items[i]])
    && q.base == available[metrics.items[0]].base && FindKey(d.keys, q.base) == Some(q.key)
    && FiltersOk(filters, d, q.base, q.key) && OrderOk(order, q.key, metrics.items)
    && q.select == KeyItems(q.base, q.key.Columns()) + MetricItems(q.metrics)
    && JoinsFor(d, q.base, q.joins, LinkedTables(q.metrics))
    && |q.where| == (if filters.List? then |filters.items| else 0)
    && (forall i :: 0 <= i < |q.where| ==> q.where[i] == FilterExpr(filters.items[i], d, q.base, q.key))
    && q.order == OrderOf(order, q.base, q.key, metrics.items)
  }

  function LinkedTables(ms: seq<MetricSpec>): set<string> {
    set i, t | 0 <= i < |ms| && t in ms[i].linked :: t
  }

  lemma JoinsForMore(d: Description, base: string, joins: seq<Join>, tables: set<string>, j: Join)
    requires JoinsFor(d, base, joins, tables) && JoinFor(d, base, j) && j.table !in tables
    ensures JoinsFor(d, base, joins + [j], tables + {j.table})
  {
    var more := joins + [j];
    forall t ensures t in tables + {j.table} <==> exists i :: 0 <= i < |more| && more[i].table == t {
      if t in tables {
        var i :| 0 <= i < |joins| && joins[i].table == t;
        assert more[i].table == t;
      } else if t == j.table {
        assert more[|joins|].table == t;
      }
    }
    forall i, k | 0 <= i < k < |more| ensures more[i].table != more[k].table {
      assert joins[i].table in tables;
    }
  }

  method BuildJoins(d: Description, base: string, tables: set<string>) returns (joins: seq<Join>)
    requires forall t :: t in tables ==> FindLink(d.links, base, t).Some? && FindLink(d.links, base, t).value.on != []
    ensures JoinsFor(d, base, joins, tables)
  {
    joins := [];
    var remaining := tables;
    ghost var done: set<string> := {};
    while remaining != {}
      invariant done + remaining == tables && done !! remaining && JoinsFor(d, base, joins, done)
      decreases remaining
    {
      var other :| other in remaining;
      var link := FindLink(d.links, base, other).value;
      JoinsForMore(d, base, joins, done, Join(other, AllEqual(base, other, link.on)));
      joins := joins + [Join(other, AllEqual(base, other, link.on))];
      remaining, done := remaining - {other}, done + {other};
    }
  }

  method BuildSelect(base: string, key: KeySpec, chosen: seq<MetricSpec>) returns (select: seq<SelectItem>)
    ensures select == KeyItems(base, key.Columns()) + MetricItems(chosen)
  {
    select := KeyItems(base, key.Columns());
    for n := 0 to |chosen|
      invariant select == KeyItems(base, key.Columns()) + MetricItems(chosen[..n])
    {
      var metric := chosen[n];
      var value := metric.value;
      var applicable := Literal(TRUE);
      if metric.applicable.Some? {
        applicable := Operate(Coalesce, [Operate(Paren, [metric.applicable.value]), Literal(FALSE)]);
        value := Operate(Case, [applicable, Operate(Paren, [value])]);
      }
      assert chosen[..n + 1][..n] == chosen[..n];
      select := select + [SelectItem(metric.name, value)];
      select := select + [SelectItem(metric.name + APPLICABLE_SUFFIX, applicable)];
    }
    assert chosen[..|chosen|] == chosen;
  }

  predicate Acceptable(d: Description, available: map<string, MetricSpec>, metrics: Arg<string>,
                       filters: Arg<RawFilter>, order: Arg<RawOrder>) {
    && MetricsOk(available, metrics)
    && var base := available[metrics.items[0]].base;
       var key := FindKey(d.keys, base);
       key.Some? && FiltersOk(filters, d, base, key.value) && OrderOk(order, key.value, metrics.items)
  }

  lemma LinkedTablesLinked(d: Description, base: string, chosen: seq<MetricSpec>)
    requires WellFormed(d) && forall m :: m in chosen ==> Compiled(m, d) && m.base == base
    ensures forall t :: t in LinkedTables(chosen) ==>
      FindLink(d.links, base, t).Some? && FindLink(d.links, base, t).value.on != []
  {
  }

  /** Checks the metric names and looks them up. */
  method ChooseMetrics(available: map<string, MetricSpec>, metrics: Arg<string>) returns (r: Option<seq<MetricSpec>>)
    ensures r.Some? <==> MetricsOk(available, metrics)
    ensures r.Some? ==> |r.value| == |metrics.items|
    ensures r.Some? ==> forall i :: 0 <= i < |r.value| ==> r.value[i] == available[metrics.items[i]]
  {
    if available == map[] || !metrics.List? || !(1 <= |metrics.items| <= MAX_METRICS) {
      return None;
    }
    DistinctBySize(metrics.items);
    if |NameSet(metrics.items)| != |metrics.items| {
      return None;
    }
    if exists m :: m in metrics.items && m !in available {
      return None;
    }
    var names := metrics.items;
    var chosen := seq(|names|, i requires 0 <= i < |names| && names[i] in available => available[names[i]]);
    if exists m :: m in names && available[m].base != available[names[0]].base {
      return None;
    }
    r := Some(chosen);
  }

  /** Builds a query for exactly the acceptable requests. */
  method BuildQuery(d: Description, available: map<string, MetricSpec>, metrics: Arg<string>,
                    filters: Arg<RawFilter>, order: Arg<RawOrder>)
    returns (r: Option<MetricQuery>)
    requires WellFormed(d) && forall n :: n in available ==> Compiled(available[n], d)
    ensures r.Some? <==> Acceptable(d, available, metrics, filters, order)
    ensures r.Some? ==> Built(d, available, metrics, filters, order, r.value)
  {
    var chosen := ChooseMetrics(available, metrics);
    if chosen.None? {
      return None;
    }
    var base := available[metrics.items[0]].base;
    assert Compiled(available[metrics.items[0]], d);
    var key := FindKey(d.keys, base).value;
    var select := BuildSelect(base, key, chosen.value);
    LinkedTablesLinked(d, base, chosen.value);
    var joins := BuildJoins(d, base, LinkedTables(chosen.value));
    var where := BuildWhere(filters, d, base, key);
    if where.None? {
      return None;
    }
    var ordered := BuildOrder(order, base, key, metrics.items);
    if ordered.None? {
      return None;
    }
    r := Some(MetricQuery(select, base, joins, where.value, ordered.value, chosen.value, key));
  }
}
