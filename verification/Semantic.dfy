/** A dataset's description of itself: tables, links between them, and the key of each base table. */
module Semantic {
  import opened Tables

  datatype ColumnType = Integer | Decimal | Textual | Unsupported(name: string)

  datatype ColumnSpec = ColumnSpec(name: string, kind: ColumnType)
  datatype TableSpec = TableSpec(name: string, columns: seq<ColumnSpec>)
  datatype LinkSpec = LinkSpec(from: string, to: string, cardinality: string, on: seq<string>)
  datatype KeySpec = KeySpec(table: string, keys: seq<string>, labels: seq<string>) {
    function Columns(): seq<string> {
      keys + labels
    }
  }

  datatype Description = Description(tables: seq<TableSpec>, links: seq<LinkSpec>, keys: seq<KeySpec>)

  const PHYSICAL_PREFIX := "phys_"

  predicate Letter(c: char) {
    'a' <= c <= 'z' || 'A' <= c <= 'Z'
  }

  /** [A-Za-z][A-Za-z0-9_]{0,62} */
  predicate ValidIdentifier(s: string) {
    1 <= |s| <= 63 && Letter(s[0]) && forall i :: 0 <= i < |s| ==> Letter(s[i]) || '0' <= s[i] <= '9' || s[i] == '_'
  }

  function LowerChar(c: char): char {
    if 'A' <= c <= 'Z' then (c as int + 32) as char else c
  }

  function Lower(s: string): string {
    seq(|s|, i requires 0 <= i < |s| => LowerChar(s[i]))
  }

  // ---- lookups: the first entry that fits -----------------------------------------------------------

  function FindColumn(columns: seq<ColumnSpec>, name: string): (r: Option<ColumnSpec>)
    ensures r.Some? ==> r.value in columns && r.value.name == name
    ensures r.None? ==> forall c :: c in columns ==> c.name != name
  {
    if columns == [] then None
    else if columns[0].name == name then Some(columns[0])
    else FindColumn(columns[1..], name)
  }

  function FindTable(tables: seq<TableSpec>, name: string): (r: Option<TableSpec>)
    ensures r.Some? ==> r.value in tables && r.value.name == name
    ensures r.None? ==> forall t :: t in tables ==> t.name != name
  {
    if tables == [] then None
    else if tables[0].name == name then Some(tables[0])
    else FindTable(tables[1..], name)
  }

  function FindKey(keys: seq<KeySpec>, table: string): (r: Option<KeySpec>)
    ensures r.Some? ==> r.value in keys && r.value.table == table
    ensures r.None? ==> forall k :: k in keys ==> k.table != table
  {
    if keys == [] then None
    else if keys[0].table == table then Some(keys[0])
    else FindKey(keys[1..], table)
  }

  function FindLink(links: seq<LinkSpec>, from: string, to: string): (r: Option<LinkSpec>)
    ensures r.Some? ==> r.value in links && r.value.from == from && r.value.to == to
    ensures r.None? ==> forall l :: l in links ==> !(l.from == from && l.to == to)
  {
    if links == [] then None
    else if links[0].from == from && links[0].to == to then Some(links[0])
    else FindLink(links[1..], from, to)
  }

  predicate HasColumn(d: Description, table: string, column: string) {
    var t := FindTable(d.tables, table);
    t.Some? && FindColumn(t.value.columns, column).Some?
  }

  /** The table exists and has all of these columns, of which there is at least one. */
  predicate HasAll(d: Description, table: string, columns: seq<string>) {
    FindTable(d.tables, table).Some? && columns != [] && forall c :: c in columns ==> HasColumn(d, table, c)
  }

  // ---- what the rest of the semantic layer relies on -------------------------------------------------

  predicate ColumnOk(c: ColumnSpec) {
    ValidIdentifier(c.name) && !c.kind.Unsupported?
  }

  predicate TableOk(t: TableSpec) {
    && ValidIdentifier(t.name) && !(PHYSICAL_PREFIX <= Lower(t.name))
    && t.columns != [] && (forall c :: c in t.columns ==> ColumnOk(c))
    && forall i, k :: 0 <= i < k < |t.columns| ==> Lower(t.columns[i].name) != Lower(t.columns[k].name)
  }

  predicate LinkOk(d: Description, l: LinkSpec) {
    && l.cardinality in ["one_to_one", "many_to_one"] && l.from != l.to
    && HasAll(d, l.from, l.on) && HasAll(d, l.to, l.on)
  }

  predicate KeyOk(d: Description, k: KeySpec) {
    && HasAll(d, k.table, k.keys) && (k.labels != [] ==> HasAll(d, k.table, k.labels))
    && forall i, j :: 0 <= i < j < |k.Columns()| ==> k.Columns()[i] != k.Columns()[j]
  }

  predicate WellFormed(d: Description) {
    && d.tables != [] && (forall t :: t in d.tables ==> TableOk(t))
    && (forall i, k :: 0 <= i < k < |d.tables| ==> Lower(d.tables[i].name) != Lower(d.tables[k].name))
    && (forall l :: l in d.links ==> LinkOk(d, l))
    && (forall i, k :: 0 <= i < k < |d.links| ==>
          !(d.links[i].from == d.links[k].from && d.links[i].to == d.links[k].to))
    && (forall k :: k in d.keys ==> KeyOk(d, k))
    && (forall i, k :: 0 <= i < k < |d.keys| ==> d.keys[i].table != d.keys[k].table)
  }

  // ---- validate, with the sets it accumulates ---------------------------------------------------------

  method ValidateColumns(t: TableSpec) returns (ok: bool)
    ensures ok <==>
      && (forall c :: c in t.columns ==> ColumnOk(c))
      && forall i, k :: 0 <= i < k < |t.columns| ==> Lower(t.columns[i].name) != Lower(t.columns[k].name)
  {
    var columns: set<string> := {};
    for n := 0 to |t.columns|
      invariant forall i :: 0 <= i < n ==> ColumnOk(t.columns[i])
      invariant columns == set i | 0 <= i < n :: Lower(t.columns[i].name)
      invariant forall i, k :: 0 <= i < k < n ==> Lower(t.columns[i].name) != Lower(t.columns[k].name)
    {
      var column := t.columns[n];
      if !ValidIdentifier(column.name) || column.kind.Unsupported? {
        assert column in t.columns && !ColumnOk(column);
        return false;
      }
      if Lower(column.name) in columns {
        return false;
      }
      columns := columns + {Lower(column.name)};
    }
    ok := true;
  }

  method ValidateTables(d: Description) returns (ok: bool)
    ensures ok <==>
      && d.tables != [] && (forall t :: t in d.tables ==> TableOk(t))
      && forall i, k :: 0 <= i < k < |d.tables| ==> Lower(d.tables[i].name) != Lower(d.tables[k].name)
  {
    if d.tables == [] {
      return false;
    }
    var seen: set<string> := {};
    for n := 0 to |d.tables|
      invariant forall i :: 0 <= i < n ==> TableOk(d.tables[i])
      invariant seen == set i | 0 <= i < n :: Lower(d.tables[i].name)
      invariant forall i, k :: 0 <= i < k < n ==> Lower(d.tables[i].name) != Lower(d.tables[k].name)
    {
      var table := d.tables[n];
      var lowered := Lower(table.name);
      assert table in d.tables;
      if !ValidIdentifier(table.name) || PHYSICAL_PREFIX <= lowered {
        return false;
      }
      if lowered in seen {
        return false;
      }
      seen := seen + {lowered};
      if table.columns == [] {
        return false;
      }
      var columns := ValidateColumns(table);
      if !columns {
        return false;
      }
    }
    ok := true;
  }

  method ValidateLinks(d: Description) returns (ok: bool)
    ensures ok <==>
      && (forall l :: l in d.links ==> LinkOk(d, l))
      && forall i, k :: 0 <= i < k < |d.links| ==>
        !(d.links[i].from == d.links[k].from && d.links[i].to == d.links[k].to)
  {
    for n := 0 to |d.links|
      invariant forall i :: 0 <= i < n ==> LinkOk(d, d.links[i])
    {
      var link := d.links[n];
      if !LinkOk(d, link) {
        assert link in d.links;
        return false;
      }
    }
    var seen: set<(string, string)> := {};
    for n := 0 to |d.links|
      invariant seen == set i | 0 <= i < n :: (d.links[i].from, d.links[i].to)
      invariant forall i, k :: 0 <= i < k < n ==>
        !(d.links[i].from == d.links[k].from && d.links[i].to == d.links[k].to)
    {
      var pair := (d.links[n].from, d.links[n].to);
      if pair in seen {
        return false;
      }
      seen := seen + {pair};
    }
    ok := true;
  }

  method ValidateKeys(d: Description) returns (ok: bool)
    ensures ok <==>
      && (forall k :: k in d.keys ==> KeyOk(d, k))
      && forall i, k :: 0 <= i < k < |d.keys| ==> d.keys[i].table != d.keys[k].table
  {
    var tables: set<string> := {};
    for n := 0 to |d.keys|
      invariant forall i :: 0 <= i < n ==> KeyOk(d, d.keys[i])
      invariant tables == set i | 0 <= i < n :: d.keys[i].table
      invariant forall i, k :: 0 <= i < k < n ==> d.keys[i].table != d.keys[k].table
    {
      var key := d.keys[n];
      if key.table in tables {
        return false;
      }
      tables := tables + {key.table};
      if !KeyOk(d, key) {
        assert key in d.keys;
        return false;
      }
    }
    ok := true;
  }

  /** Accepts exactly the well-formed descriptions. */
  method Validate(d: Description) returns (ok: bool)
    ensures ok <==> WellFormed(d)
  {
    ok := ValidateTables(d);
    if ok {
      ok := ValidateLinks(d);
    }
    if ok {
      ok := ValidateKeys(d);
    }
  }

  // ---- lookups in a well-formed description are unambiguous ------------------------------------------

  lemma {:induction false} FindTableUnique(tables: seq<TableSpec>, t: TableSpec)
    requires t in tables && forall i, k :: 0 <= i < k < |tables| ==> Lower(tables[i].name) != Lower(tables[k].name)
    ensures FindTable(tables, t.name) == Some(t)
  {
  }
}
