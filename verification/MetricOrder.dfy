/** The order of a metric query's result is total, so with a unique base key there is exactly one result. */
module MetricOrder {
  import opened Tables
  import opened Semantic
  import opened Expressions
  import opened MetricCompiler
  import opened MetricMeaning
  import opened MetricPreservation

  // ---- comparing values -------------------------------------------------------------------------------

  lemma {:induction false} TextTotal(a: string, b: string)
    ensures a == b || TextBefore(a, b) || TextBefore(b, a)
    ensures !(TextBefore(a, b) && TextBefore(b, a))
  {
    if a != [] && b != [] {
      TextTotal(a[1..], b[1..]);
      if a[0] == b[0] && a[1..] == b[1..] {
        assert a == [a[0]] + a[1..] == b;
      }
    }
  }

  lemma {:induction false} TextIrreflexive(a: string)
    ensures !TextBefore(a, a)
  {
    if a != [] {
      TextIrreflexive(a[1..]);
    }
  }

  lemma {:induction false} TextTransitive(a: string, b: string, c: string)
    requires TextBefore(a, b) && TextBefore(b, c)
    ensures TextBefore(a, c)
  {
    if a != [] && a[0] == b[0] && b[0] == c[0] {
      TextTransitive(a[1..], b[1..], c[1..]);
    }
  }

  function Rank(v: Value): nat {
    match v
    case Bool(_) => 0
    case Num(_) => 1
    case Text(_) => 2
    case Null => 3
  }

  predicate ValueBefore(a: Value, b: Value) {
    if Rank(a) != Rank(b) then Rank(a) < Rank(b)
    else match a
      case Bool(x) => !x && b.b
      case Num(x) => x < b.n
      case Text(x) => TextBefore(x, b.s)
      case Null => false
  }

  lemma ValueTotal(a: Value, b: Value)
    ensures a == b || ValueBefore(a, b) || ValueBefore(b, a)
    ensures !(ValueBefore(a, b) && ValueBefore(b, a)) && !ValueBefore(a, a)
  {
    if a.Text? {
      TextIrreflexive(a.s);
      if b.Text? {
        TextTotal(a.s, b.s);
      }
    }
  }

  lemma ValueTransitive(a: Value, b: Value, c: Value)
    requires ValueBefore(a, b) && ValueBefore(b, c)
    ensures ValueBefore(a, c)
  {
    if a.Text? && b.Text? && c.Text? {
      TextTransitive(a.s, b.s, c.s);
    }
  }

  /** One ORDER BY entry; missing values come last in either direction. */
  predicate Before(a: Value, b: Value, descending: bool) {
    if a.Null? || b.Null? then !a.Null? && b.Null?
    else if descending then ValueBefore(b, a) else ValueBefore(a, b)
  }

  /** All entries in turn. */
  predicate InOrder(a: seq<Value>, b: seq<Value>, order: seq<OrderItem>)
    requires |a| == |b| == |order|
  {
    if a == [] then true
    else if a[0] == b[0] then InOrder(a[1..], b[1..], order[1..])
    else Before(a[0], b[0], order[0].descending)
  }

  lemma BeforeTotal(a: Value, b: Value, descending: bool)
    requires a != b
    ensures Before(a, b, descending) <==> !Before(b, a, descending)
  {
    ValueTotal(a, b);
  }

  lemma {:induction false} InOrderTotal(a: seq<Value>, b: seq<Value>, order: seq<OrderItem>)
    requires |a| == |b| == |order|
    ensures InOrder(a, b, order) || InOrder(b, a, order)
    ensures InOrder(a, b, order) && InOrder(b, a, order) ==> a == b
  {
    if a != [] {
      InOrderTotal(a[1..], b[1..], order[1..]);
      if a[0] != b[0] {
        BeforeTotal(a[0], b[0], order[0].descending);
      } else if a[1..] == b[1..] {
        assert a == [a[0]] + a[1..] == b;
      }
    }
  }

  lemma BeforeTransitive(a: Value, b: Value, c: Value, descending: bool)
    requires Before(a, b, descending) && Before(b, c, descending)
    ensures Before(a, c, descending) && a != c
  {
    ValueTotal(a, b);
    ValueTotal(b, c);
    ValueTotal(a, c);
    if !c.Null? {
      if descending {
        ValueTransitive(c, b, a);
      } else {
        ValueTransitive(a, b, c);
      }
    }
  }

  lemma {:induction false} InOrderTransitive(a: seq<Value>, b: seq<Value>, c: seq<Value>, order: seq<OrderItem>)
    requires |a| == |b| == |c| == |order| && InOrder(a, b, order) && InOrder(b, c, order)
    ensures InOrder(a, c, order)
  {
    if a != [] {
      if a[0] == b[0] == c[0] {
        InOrderTransitive(a[1..], b[1..], c[1..], order[1..]);
      } else if a[0] != b[0] && b[0] != c[0] {
        BeforeTransitive(a[0], b[0], c[0], order[0].descending);
      }
    }
  }

  // ---- results ------------------------------------------------------------------------------------------

  predicate Keyed(outs: seq<Out>, order: seq<OrderItem>) {
    forall o :: o in outs ==> |o.keys| == |order|
  }

  predicate Sorted(outs: seq<Out>, order: seq<OrderItem>)
    requires Keyed(outs, order)
  {
    forall i, k :: 0 <= i < k < |outs| ==> InOrder(outs[i].keys, outs[k].keys, order)
  }

  /** A result of the query: its rows, each as often as it occurs, in an order the ORDER BY allows. A query
      that gives two columns one name is refused and has none. */
  predicate Answer(q: MetricQuery, data: Data, outs: seq<Out>) {
    && Distinct(Aliases(q.select))
    && multiset(outs) == multiset(Output(q, RowsOf(data, q.base), data))
    && Keyed(outs, q.order) && Sorted(outs, q.order)
  }

  // ---- every query that is not refused has a result -----------------------------------------------------

  function Insert(o: Out, outs: seq<Out>, order: seq<OrderItem>): (r: seq<Out>)
    requires |o.keys| == |order| && Keyed(outs, order)
    ensures multiset(r) == multiset(outs) + multiset{o} && Keyed(r, order)
  {
    if outs == [] then [o]
    else if InOrder(o.keys, outs[0].keys, order) then [o] + outs
    else
      assert outs == [outs[0]] + outs[1..];
      [outs[0]] + Insert(o, outs[1..], order)
  }

  lemma {:induction false} InsertSorted(o: Out, outs: seq<Out>, order: seq<OrderItem>)
    requires |o.keys| == |order| && Keyed(outs, order) && Sorted(outs, order)
    ensures Sorted(Insert(o, outs, order), order)
  {
    if outs != [] {
      if InOrder(o.keys, outs[0].keys, order) {
        forall k | 0 <= k < |outs| ensures InOrder(o.keys, outs[k].keys, order) {
          if k > 0 {
            InOrderTransitive(o.keys, outs[0].keys, outs[k].keys, order);
          }
        }
      } else {
        InsertSorted(o, outs[1..], order);
        InOrderTotal(o.keys, outs[0].keys, order);
        var rest := Insert(o, outs[1..], order);
        forall k | 0 <= k < |rest| ensures InOrder(outs[0].keys, rest[k].keys, order) {
          assert rest[k] in multiset(rest);
          assert rest[k] in outs[1..] || rest[k] == o;
        }
      }
    }
  }

  lemma {:induction false} SortExists(outs: seq<Out>, order: seq<OrderItem>) returns (sorted: seq<Out>)
    requires Keyed(outs, order)
    ensures multiset(sorted) == multiset(outs) && Keyed(sorted, order) && Sorted(sorted, order)
  {
    if outs == [] {
      sorted := [];
    } else {
      var rest := SortExists(outs[1..], order);
      InsertSorted(outs[0], rest, order);
      sorted := Insert(outs[0], rest, order);
      assert outs == [outs[0]] + outs[1..];
    }
  }

  lemma {:induction false} OutputKeyed(q: MetricQuery, rows: seq<Row>, data: Data)
    ensures Keyed(Output(q, rows, data), q.order)
  {
    if rows != [] {
      KeptKeyed(q, JoinAll(map[q.base := rows[0]], q.joins, data));
      OutputKeyed(q, rows[1..], data);
    }
  }

  lemma {:induction false} KeptKeyed(q: MetricQuery, scopes: seq<Scope>)
    ensures Keyed(Kept(q, scopes), q.order)
  {
    if scopes != [] {
      KeptKeyed(q, scopes[1..]);
    }
  }

  lemma AnswerExists(q: MetricQuery, data: Data) returns (outs: seq<Out>)
    requires Distinct(Aliases(q.select))
    ensures Answer(q, data, outs)
  {
    OutputKeyed(q, RowsOf(data, q.base), data);
    outs := SortExists(Output(q, RowsOf(data, q.base), data), q.order);
  }

  // ---- ... and with a unique key only one ------------------------------------------------------------------

  /** The first row of one arrangement is somewhere in the other. */
  lemma SameFirst(x: seq<Out>, y: seq<Out>, order: seq<OrderItem>)
    requires Keyed(x, order) && Keyed(y, order) && Sorted(x, order) && Sorted(y, order) && multiset(x) == multiset(y)
    requires forall a, b :: a in x && b in x && a.keys == b.keys ==> a == b
    requires x != [] && y != []
    ensures x[0] == y[0]
  {
    assert x[0] in multiset(y) && y[0] in multiset(x);
    var i :| 0 <= i < |y| && y[i] == x[0];
    var k :| 0 <= k < |x| && x[k] == y[0];
    if i > 0 && k > 0 {
      InOrderTotal(x[0].keys, y[0].keys, order);
    }
  }

  /** Two sorted arrangements of the same rows are equal when rows with equal keys are equal. */
  lemma {:induction false} SortedUnique(x: seq<Out>, y: seq<Out>, order: seq<OrderItem>)
    requires Keyed(x, order) && Keyed(y, order) && Sorted(x, order) && Sorted(y, order) && multiset(x) == multiset(y)
    requires forall a, b :: a in x && b in x && a.keys == b.keys ==> a == b
    ensures x == y
  {
    assert |y| == |multiset(y)| == |multiset(x)| == |x|;
    if x != [] {
      SameFirst(x, y, order);
      SameRest(x, y);
      SortedUnique(x[1..], y[1..], order);
      assert x == [x[0]] + x[1..] && y == [y[0]] + y[1..];
    }
  }

  lemma SameRest(x: seq<Out>, y: seq<Out>)
    requires x != [] && y != [] && x[0] == y[0] && multiset(x) == multiset(y)
    ensures multiset(x[1..]) == multiset(y[1..])
  {
    assert x == [x[0]] + x[1..] && y == [y[0]] + y[1..];
    assert multiset(x[1..]) == multiset(x) - multiset{x[0]};
    assert multiset(y[1..]) == multiset(y) - multiset{y[0]};
  }

  predicate OrdersBy(order: seq<OrderItem>, base: string, c: string) {
    exists i :: 0 <= i < |order| && order[i].target == ByColumn(base, c)
  }

  /** Every key column is among the order entries, asked for or added. */
  lemma {:induction false} KeyIsOrdered(items: seq<RawOrder>, base: string, key: KeySpec, columns: seq<string>,
                                        c: string)
    requires c in columns && c in key.Columns() && forall o :: o in items ==> o.RawOrder? && o.descending.Some?
    ensures OrdersBy(UserOrder(items, base, key) + MissingKeys(items, base, columns), base, c)
  {
    var user, n := UserOrder(items, base, key), |columns| - 1;
    var all: seq<OrderItem> := user + MissingKeys(items, base, columns);
    if Asked(items, c) {
      var i :| 0 <= i < |items| && items[i].RawOrder? && items[i].name == c;
      assert all[i].target == ByColumn(base, c);
    } else if columns[n] == c {
      assert all[|all| - 1].target == ByColumn(base, c);
    } else {
      assert c in columns[..n];
      KeyIsOrdered(items, base, key, columns[..n], c);
      var fewer: seq<OrderItem> := user + MissingKeys(items, base, columns[..n]);
      var i :| 0 <= i < |fewer| && fewer[i].target == ByColumn(base, c);
      assert all[i] == fewer[i];
    }
  }

  /** No two base rows share all their key columns. */
  predicate KeyUnique(rows: seq<Row>, keys: seq<string>) {
    forall i, k :: 0 <= i < k < |rows| ==> !SameKey(rows[i], rows[k], keys)
  }

  predicate SameKey(a: Row, b: Row, keys: seq<string>) {
    forall c :: c in keys ==> Field(a, c) == Field(b, c)
  }

  /** Rows of the result with the same order keys come from the same base row. */
  lemma SameKeysSameRow(q: MetricQuery, d: Description, data: Data, rows: seq<Row>, i: nat, k: nat)
    requires i < |rows| && k < |rows| && KeyUnique(rows, q.key.keys)
    requires forall c :: c in q.key.keys ==> OrdersBy(q.order, q.base, c)
    requires OutsOf(q, d, data, rows)[i].keys == OutsOf(q, d, data, rows)[k].keys
    ensures i == k
  {
    var x, y := OutsOf(q, d, data, rows)[i], OutsOf(q, d, data, rows)[k];
    forall c | c in q.key.keys ensures Field(rows[i], c) == Field(rows[k], c) {
      var n :| 0 <= n < |q.order| && q.order[n].target == ByColumn(q.base, c);
      assert x.keys[n] == Field(rows[i], c) && y.keys[n] == Field(rows[k], c);
    }
    assert SameKey(rows[i], rows[k], q.key.keys) && SameKey(rows[k], rows[i], q.key.keys);
  }

  /** No two selected base rows share all their key columns. */
  predicate SelectedApart(q: MetricQuery, data: Data, filters: Arg<RawFilter>) {
    && (filters.List? ==> forall f :: f in filters.items ==> f.RawFilter?)
    && KeyUnique(WantedRows(filters, RowsOf(data, q.base)), q.key.keys)
  }

  /** When no selected row has two matches or the key of another, the request determines its result row by row:
      the order leaves no two rows tied. */
  lemma AnswerUnique(d: Description, available: map<string, MetricSpec>, metrics: Arg<string>,
                     filters: Arg<RawFilter>, order: Arg<RawOrder>, q: MetricQuery, data: Data, x: seq<Out>,
                     y: seq<Out>)
    requires Requested(d, available) && MetricsOk(available, metrics) && Built(d, available, metrics, filters, order, q)
    requires SelectedOnce(q, d, data, filters) && SelectedApart(q, data, filters)
    requires Answer(q, data, x) && Answer(q, data, y)
    ensures x == y
  {
    BuiltFacts(d, available, metrics, filters, order, q);
    forall c | c in q.key.keys ensures OrdersBy(q.order, q.base, c) {
      KeyIsOrdered(if order.List? then order.items else [], q.base, q.key, q.key.keys, c);
    }
    OutputIsWanted(q, d, filters, RowsOf(data, q.base), data);
    OutsDetermined(q, d, data, WantedRows(filters, RowsOf(data, q.base)), x);
    SortedUnique(x, y, q.order);
  }

  lemma OutsDetermined(q: MetricQuery, d: Description, data: Data, wanted: seq<Row>, x: seq<Out>)
    requires (forall c :: c in q.key.keys ==> OrdersBy(q.order, q.base, c)) && KeyUnique(wanted, q.key.keys)
    requires multiset(x) == multiset(OutsOf(q, d, data, wanted))
    ensures forall a, b :: a in x && b in x && a.keys == b.keys ==> a == b
  {
    var outs := OutsOf(q, d, data, wanted);
    forall a, b | a in x && b in x && a.keys == b.keys ensures a == b {
      assert a in multiset(outs) && b in multiset(outs);
      var i :| 0 <= i < |outs| && outs[i] == a;
      var k :| 0 <= k < |outs| && outs[k] == b;
      SameKeysSameRow(q, d, data, wanted, i, k);
    }
  }
}
