/** Metric expressions as syntax trees: a three-valued semantics, and the check that admits an expression
    and gives every column its table. */
module Expressions {
  import opened Tables
  import opened Semantic

  datatype Value = Null | Bool(b: bool) | Num(n: real) | Text(s: string)

  datatype Op =
    | Lit(v: Value)
    | Paren | Neg | Abs | Round
    | Add | Sub | Mul | Div
    | Gt | Gte | Lt | Lte | Eq | Neq | Is
    | And | Or | Not
    | Case | Coalesce | Nullif
    | In                       // only in compiled filters, never in a definition
    | Foreign(name: string)    // any other syntax: functions, subqueries, casts, ...

  /** `catalog` holds a database or catalog qualifier, `table` a table qualifier; "" is none. */
  datatype Tag = Column(catalog: string, table: string, name: string) | Op(op: Op)

  /** A CASE holds its conditions and values alternately, and last its ELSE if it has one. */
  datatype Expr = Node(tag: Tag, args: seq<Expr>)

  // ---- values ---------------------------------------------------------------------------------------

  const TRUE := Bool(true)
  const FALSE := Bool(false)

  function AndValue(a: Value, b: Value): Value {
    if a == FALSE || b == FALSE then FALSE else if a == TRUE && b == TRUE then TRUE else Null
  }

  function NotValue(a: Value): Value {
    if a.Bool? then Bool(!a.b) else Null
  }

  function EqValue(a: Value, b: Value): Value {
    if a.Null? || b.Null? then Null else Bool(a == b)
  }

  predicate TextBefore(a: string, b: string) {
    if a == [] then b != [] else b != [] && (a[0] < b[0] || (a[0] == b[0] && TextBefore(a[1..], b[1..])))
  }

  function LessValue(a: Value, b: Value): Value {
    if a.Num? && b.Num? then Bool(a.n < b.n)
    else if a.Text? && b.Text? then Bool(TextBefore(a.s, b.s))
    else Null
  }

  function Arithmetic(op: Op, a: Value, b: Value): Value {
    if !a.Num? || !b.Num? then Null
    else match op
      case Add => Num(a.n + b.n)
      case Sub => Num(a.n - b.n)
      case Mul => Num(a.n * b.n)
      case Div => if b.n == 0.0 then Null else Num(a.n / b.n)
      case _ => Null
  }

  /** A condition as the engine and the service read it: unknown is false. */
  predicate Truthy(v: Value) {
    match v
    case Null => false
    case Bool(b) => b
    case Num(n) => n != 0.0
    case Text(s) => s != ""
  }

  function CaseValue(args: seq<Value>): Value {
    if args == [] then Null
    else if |args| == 1 then args[0]
    else if Truthy(args[0]) then args[1]
    else CaseValue(args[2..])
  }

  function CoalesceValue(args: seq<Value>): Value {
    if args == [] then Null else if !args[0].Null? then args[0] else CoalesceValue(args[1..])
  }

  function InValue(v: Value, list: seq<Value>): Value {
    if list == [] then FALSE
    else
      var first, rest := EqValue(v, list[0]), InValue(v, list[1..]);
      NotValue(AndValue(NotValue(first), NotValue(rest)))
  }

  function Pow10(n: nat): (r: real)
    ensures r >= 1.0
  {
    if n == 0 then 1.0 else 10.0 * Pow10(n - 1)
  }

  /** Half away from zero. */
  function RoundWhole(x: real): real {
    if x >= 0.0 then (x + 0.5).Floor as real else -((0.5 - x).Floor as real)
  }

  function RoundValue(x: real, digits: int): real {
    if digits >= 0 then RoundWhole(x * Pow10(digits)) / Pow10(digits)
    else RoundWhole(x / Pow10(-digits)) * Pow10(-digits)
  }

  /** One operator on the values of its operands. */
  function Apply(op: Op, a: seq<Value>): Value {
    match op
    case Lit(v) => v
    case Paren => if |a| == 1 then a[0] else Null
    case Neg => if |a| == 1 && a[0].Num? then Num(-a[0].n) else Null
    case Abs => if |a| == 1 && a[0].Num? then Num(if a[0].n < 0.0 then -a[0].n else a[0].n) else Null
    case Round =>
      if |a| == 1 && a[0].Num? then Num(RoundValue(a[0].n, 0))
      else if |a| == 2 && a[0].Num? && a[1].Num? then Num(RoundValue(a[0].n, a[1].n.Floor))
      else Null
    case Gt => if |a| == 2 then LessValue(a[1], a[0]) else Null
    case Lt => if |a| == 2 then LessValue(a[0], a[1]) else Null
    case Gte => if |a| == 2 then NotValue(LessValue(a[0], a[1])) else Null
    case Lte => if |a| == 2 then NotValue(LessValue(a[1], a[0])) else Null
    case Eq => if |a| == 2 then EqValue(a[0], a[1]) else Null
    case Neq => if |a| == 2 then NotValue(EqValue(a[0], a[1])) else Null
    case Is => if |a| == 2 then Bool(a[0] == a[1]) else Null
    case And => if |a| == 2 then AndValue(a[0], a[1]) else Null
    case Or => if |a| == 2 then NotValue(AndValue(NotValue(a[0]), NotValue(a[1]))) else Null
    case Not => if |a| == 1 then NotValue(a[0]) else Null
    case Case => CaseValue(a)
    case Coalesce => CoalesceValue(a)
    case Nullif => if |a| == 2 then (if EqValue(a[0], a[1]) == TRUE then Null else a[0]) else Null
    case In => if |a| >= 1 then InValue(a[0], a[1..]) else Null
    case Foreign(_) => Null
    case _ => if |a| == 2 then Arithmetic(op, a[0], a[1]) else Null
  }

  // ---- rows -----------------------------------------------------------------------------------------

  type Row = map<string, Value>

  function Field(r: Row, column: string): Value {
    if column in r then r[column] else Null
  }

  /** One row of each table in scope; a table that found no partner in a left join has the empty row. */
  type Scope = map<string, Row>

  function Cell(scope: Scope, table: string, column: string): Value {
    if table in scope then Field(scope[table], column) else Null
  }

  /** What the query engine computes: every column names its table. */
  function Eval(e: Expr, scope: Scope): Value {
    match e.tag
    case Column(_, table, name) => Cell(scope, table, name)
    case Op(op) => Apply(op, EvalAll(e.args, scope))
  }

  function EvalAll(es: seq<Expr>, scope: Scope): (r: seq<Value>)
    ensures |r| == |es|
  {
    if es == [] then [] else [Eval(es[0], scope)] + EvalAll(es[1..], scope)
  }

  /** What the author of a definition means: an unqualified column is one of the base table. */
  function Meaning(e: Expr, base: string, scope: Scope): Value {
    match e.tag
    case Column(_, table, name) => Cell(scope, if table == "" then base else table, name)
    case Op(op) => Apply(op, MeaningAll(e.args, base, scope))
  }

  function MeaningAll(es: seq<Expr>, base: string, scope: Scope): (r: seq<Value>)
    ensures |r| == |es|
  {
    if es == [] then [] else [Meaning(es[0], base, scope)] + MeaningAll(es[1..], base, scope)
  }

  // ---- the check --------------------------------------------------------------------------------------

  predicate Allowed(op: Op) {
    !op.Foreign? && !op.In?
  }

  function TableOf(l: Tag, base: string): string
    requires l.Column?
  {
    if l.table == "" then base else l.table
  }

  /** A node the check lets through. */
  predicate TagOk(l: Tag, base: string, d: Description) {
    match l
    case Op(op) => Allowed(op)
    case Column(catalog, table, name) =>
      && catalog == "" && HasColumn(d, TableOf(l, base), name)
      && (TableOf(l, base) == base || FindLink(d.links, base, TableOf(l, base)).Some?)
  }

  function Qualified(l: Tag, base: string): Tag {
    if l.Column? then Column(l.catalog, TableOf(l, base), l.name) else l
  }

  /** The tags of a tree in the order of a walk, and the tree with other tags in their place. */
  function Tags(e: Expr): (r: seq<Tag>)
    ensures |r| >= 1
  {
    [e.tag] + TagsAll(e.args)
  }

  function TagsAll(es: seq<Expr>): seq<Tag> {
    if es == [] then [] else Tags(es[0]) + TagsAll(es[1..])
  }

  function Retag(e: Expr, tags: seq<Tag>): Expr
    requires |tags| == |Tags(e)|
    decreases e, 0
  {
    Node(tags[0], RetagAll(e.args, tags[1..]))
  }

  function RetagAll(es: seq<Expr>, tags: seq<Tag>): (r: seq<Expr>)
    requires |tags| == |TagsAll(es)|
    decreases es, 1
  {
    if es == [] then []
    else [Retag(es[0], tags[..|Tags(es[0])|])] + RetagAll(es[1..], tags[|Tags(es[0])|..])
  }

  /** The walk: rejects the tree at the first node that is not allowed, otherwise puts its table on every
      column in place and collects the linked tables. */
  method Expression(tags: array<Tag>, base: string, d: Description) returns (ok: bool, linked: set<string>)
    modifies tags
    ensures ok <==> forall i :: 0 <= i < tags.Length ==> TagOk(old(tags[i]), base, d)
    ensures ok ==> forall i :: 0 <= i < tags.Length ==> tags[i] == Qualified(old(tags[i]), base)
    ensures ok ==> linked == LinkedBy(old(tags[..]), base)
  {
    linked := {};
    for n := 0 to tags.Length
      invariant forall i :: 0 <= i < n ==> TagOk(old(tags[i]), base, d) && tags[i] == Qualified(old(tags[i]), base)
      invariant forall i :: n <= i < tags.Length ==> tags[i] == old(tags[i])
      invariant linked == LinkedBy(old(tags[..])[..n], base)
    {
      var tag := tags[n];
      ghost var before := old(tags[..]);
      assert before[..n + 1][..n] == before[..n];
      LinkedByNext(before[..n + 1], base);
      match tag {
        case Op(op) =>
          if !Allowed(op) {
            return false, linked;
          }
        case Column(catalog, _, name) =>
          if catalog != "" {
            return false, linked;
          }
          var table := TableOf(tag, base);
          if !HasColumn(d, table, name) {
            return false, linked;
          }
          if table != base {
            if FindLink(d.links, base, table).None? {
              return false, linked;
            }
            linked := linked + {table};
          }
          tags[n] := Column(catalog, table, name);
      }
    }
    assert old(tags[..])[..tags.Length] == old(tags[..]);
    ok := true;
  }

  function LinkedBy(tags: seq<Tag>, base: string): set<string> {
    set i | 0 <= i < |tags| && tags[i].Column? && TableOf(tags[i], base) != base :: TableOf(tags[i], base)
  }

  lemma LinkedByNext(tags: seq<Tag>, base: string)
    requires tags != []
    ensures var n, l := |tags| - 1, tags[|tags| - 1];
      LinkedBy(tags, base) ==
      LinkedBy(tags[..n], base) + if l.Column? && TableOf(l, base) != base then {TableOf(l, base)} else {}
  {
  }

  // ---- what the check establishes ----------------------------------------------------------------------

  function Qualify(e: Expr, base: string): Expr {
    Node(Qualified(e.tag, base), QualifyAll(e.args, base))
  }

  function QualifyAll(es: seq<Expr>, base: string): seq<Expr> {
    if es == [] then [] else [Qualify(es[0], base)] + QualifyAll(es[1..], base)
  }

  /** Rewriting the walk's nodes in place rewrites the tree. */
  lemma {:induction false} RetagQualifies(e: Expr, tags: seq<Tag>, base: string)
    requires |tags| == |Tags(e)| && forall i :: 0 <= i < |tags| ==> tags[i] == Qualified(Tags(e)[i], base)
    ensures Retag(e, tags) == Qualify(e, base)
    decreases e, 0
  {
    assert forall i :: 0 <= i < |tags| - 1 ==> tags[1..][i] == tags[i + 1] && TagsAll(e.args)[i] == Tags(e)[i + 1];
    RetagAllQualifies(e.args, tags[1..], base);
  }

  lemma {:induction false} RetagAllQualifies(es: seq<Expr>, tags: seq<Tag>, base: string)
    requires |tags| == |TagsAll(es)| && forall i :: 0 <= i < |tags| ==> tags[i] == Qualified(TagsAll(es)[i], base)
    ensures RetagAll(es, tags) == QualifyAll(es, base)
    decreases es, 1
  {
    if es != [] {
      var k := |Tags(es[0])|;
      assert forall i :: 0 <= i < k ==> tags[..k][i] == tags[i] && Tags(es[0])[i] == TagsAll(es)[i];
      assert forall i :: 0 <= i < |tags| - k ==>
        tags[k..][i] == tags[i + k] && TagsAll(es[1..])[i] == TagsAll(es)[i + k];
      RetagQualifies(es[0], tags[..k], base);
      RetagAllQualifies(es[1..], tags[k..], base);
    }
  }

  /** Qualification preserves meaning: unqualified columns always mean the base table. */
  lemma {:induction false} QualifyPreservesMeaning(e: Expr, base: string, scope: Scope)
    ensures Eval(Qualify(e, base), scope) == Meaning(e, base, scope)
    decreases e, 0
  {
    QualifyAllPreservesMeaning(e.args, base, scope);
  }

  lemma {:induction false} QualifyAllPreservesMeaning(es: seq<Expr>, base: string, scope: Scope)
    ensures EvalAll(QualifyAll(es, base), scope) == MeaningAll(es, base, scope)
    decreases es, 1
  {
    if es != [] {
      QualifyPreservesMeaning(es[0], base, scope);
      QualifyAllPreservesMeaning(es[1..], base, scope);
      var qs := QualifyAll(es, base);
      assert qs[0] == Qualify(es[0], base) && qs[1..] == QualifyAll(es[1..], base);
    }
  }

  predicate SameRow(a: Scope, b: Scope, table: string) {
    (table in a <==> table in b) && (table in a ==> a[table] == b[table])
  }

  /** An expression looks at no table but the base and the ones the check collected. */
  lemma {:induction false} MeaningLooksOnlyAt(e: Expr, base: string, a: Scope, b: Scope)
    requires SameRow(a, b, base) && forall t :: t in LinkedBy(Tags(e), base) ==> SameRow(a, b, t)
    ensures Meaning(e, base, a) == Meaning(e, base, b)
    decreases e, 0
  {
    var tags := Tags(e);
    if e.tag.Column? {
      assert tags[0] == e.tag;
      assert TableOf(e.tag, base) != base ==> TableOf(e.tag, base) in LinkedBy(tags, base);
    } else {
      LinkedByPart(tags, 1, |tags|, base);
      assert tags[1..|tags|] == TagsAll(e.args);
      MeaningAllLooksOnlyAt(e.args, base, a, b);
    }
  }

  lemma {:induction false} MeaningAllLooksOnlyAt(es: seq<Expr>, base: string, a: Scope, b: Scope)
    requires SameRow(a, b, base) && forall t :: t in LinkedBy(TagsAll(es), base) ==> SameRow(a, b, t)
    ensures MeaningAll(es, base, a) == MeaningAll(es, base, b)
    decreases es, 1
  {
    if es != [] {
      var tags, k := TagsAll(es), |Tags(es[0])|;
      LinkedByPart(tags, 0, k, base);
      LinkedByPart(tags, k, |tags|, base);
      assert tags[0..k] == Tags(es[0]) && tags[k..|tags|] == TagsAll(es[1..]);
      MeaningLooksOnlyAt(es[0], base, a, b);
      MeaningAllLooksOnlyAt(es[1..], base, a, b);
    }
  }

  lemma LinkedByPart(tags: seq<Tag>, lo: nat, hi: nat, base: string)
    requires lo <= hi <= |tags|
    ensures LinkedBy(tags[lo..hi], base) <= LinkedBy(tags, base)
  {
  }
}
