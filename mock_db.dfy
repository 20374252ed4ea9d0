/**
 * The in-memory database of the demo and its chainable query builder
 * (src/lib/supabase.js).  Tables are sequences of rows; a row maps column
 * names to JSON-like values.  A builder records filters, an ordering, a
 * limit and an operation, and `Execute` runs them against the database.
 */
module MockDb {
  import opened Wrappers
  import StableSort
  import Text

  datatype Value = Str(s: string) | Num(x: real) | Bool(b: bool) | Null

  type Row = map<string, Value>

  /** `row[field]`: absent columns read as `undefined` (None). */
  function Field(row: Row, name: string): Option<Value>
  {
    if name in row then Some(row[name]) else None
  }

  /**
   * `String(v)`.  How JavaScript writes a number is a built-in of the
   * runtime, so it is the parameter numText.
   */
  function Show(v: Option<Value>, numText: real -> string): string
  {
    match v
    case None => "undefined"
    case Some(Str(s)) => s
    case Some(Num(x)) => numText(x)
    case Some(Bool(b)) => if b then "true" else "false"
    case Some(Null) => "null"
  }

  /** JavaScript truthiness of a value read from a row. */
  predicate Truthy(v: Option<Value>)
  {
    match v
    case None => false
    case Some(Str(s)) => s != ""
    case Some(Num(x)) => x != 0.0
    case Some(Bool(b)) => b
    case Some(Null) => false
  }

  // ---------------------------------------------------------------- filters

  /** An `eq(field, value)` filter. */
  datatype Filter = Equals(field: string, value: Value)

  /** A row passes `eq(field, value)` when both sides print alike. */
  predicate Matches(row: Row, f: Filter, numText: real -> string)
  {
    Show(Field(row, f.field), numText) == Show(Some(f.value), numText)
  }

  /** `this._filters.every(f => f(row))`, filter by filter. */
  predicate MatchesAll(row: Row, filters: seq<Filter>, numText: real -> string)
  {
    filters == [] || (MatchesAll(row, filters[..|filters| - 1], numText) && Matches(row, filters[|filters| - 1], numText))
  }

  /** A row passes the filters exactly when it passes each one of them. */
  lemma {:induction false} MatchesAllEvery(row: Row, filters: seq<Filter>, numText: real -> string)
    ensures MatchesAll(row, filters, numText) <==> forall i | 0 <= i < |filters| :: Matches(row, filters[i], numText)
  {
    if filters != [] {
      var init := filters[..|filters| - 1];
      MatchesAllEvery(row, init, numText);
      assert forall i | 0 <= i < |init| :: init[i] == filters[i];
    }
  }

  /** The rows passing every filter, in table order. */
  function Where(rows: seq<Row>, filters: seq<Filter>, numText: real -> string): (r: seq<Row>)
    ensures |r| <= |rows|
  {
    if rows == [] then []
    else
      var row := rows[|rows| - 1];
      Where(rows[..|rows| - 1], filters, numText) + (if MatchesAll(row, filters, numText) then [row] else [])
  }

  /** How many rows pass every filter. */
  function MatchCount(rows: seq<Row>, filters: seq<Filter>, numText: real -> string): nat
  {
    if rows == [] then 0
    else
      MatchCount(rows[..|rows| - 1], filters, numText) + (if MatchesAll(rows[|rows| - 1], filters, numText) then 1 else 0)
  }

  /** The rows failing some filter, in table order: what `delete` keeps. */
  function Remove(rows: seq<Row>, filters: seq<Filter>, numText: real -> string): (r: seq<Row>)
    ensures |r| <= |rows|
  {
    if rows == [] then []
    else
      var row := rows[|rows| - 1];
      Remove(rows[..|rows| - 1], filters, numText) + (if MatchesAll(row, filters, numText) then [] else [row])
  }

  /**
   * A row is selected exactly when it is in the table and passes every
   * filter, and the filters select MatchCount rows.
   */
  lemma {:induction false} WhereSpec(rows: seq<Row>, filters: seq<Filter>, numText: real -> string)
    ensures forall row :: row in Where(rows, filters, numText) <==> row in rows && MatchesAll(row, filters, numText)
    ensures |Where(rows, filters, numText)| == MatchCount(rows, filters, numText)
  {
    if rows != [] {
      var init, last := rows[..|rows| - 1], rows[|rows| - 1];
      WhereSpec(init, filters, numText);
      assert rows == init + [last];
    }
  }

  /** The filters select the whole table exactly when every row passes them. */
  lemma {:induction false} WhereAll(rows: seq<Row>, filters: seq<Filter>, numText: real -> string)
    ensures Where(rows, filters, numText) == rows <==> forall i | 0 <= i < |rows| :: MatchesAll(rows[i], filters, numText)
  {
    if rows != [] {
      var init, last := rows[..|rows| - 1], rows[|rows| - 1];
      WhereAll(init, filters, numText);
      var w := Where(init, filters, numText);
      if MatchesAll(last, filters, numText) {
        if w == init {
          assert rows == init + [last];
        }
        if Where(rows, filters, numText) == rows {
          assert w + [last] == init + [last];
          assert w == (w + [last])[..|init|];
        }
      } else {
        assert |Where(rows, filters, numText)| <= |init|;
      }
      forall i | 0 <= i < |init| ensures init[i] == rows[i] {
      }
    }
  }

  /** A row passes the filters and f exactly when it passes the filters and passes f. */
  lemma MatchesAllSnoc(row: Row, filters: seq<Filter>, f: Filter, numText: real -> string)
    ensures MatchesAll(row, filters + [f], numText) <==> MatchesAll(row, filters, numText) && Matches(row, f, numText)
    ensures MatchesAll(row, [f], numText) <==> Matches(row, f, numText)
  {
    assert (filters + [f])[..|filters|] == filters;
    assert [f][..0] == [];
  }

  /** Filtering once more by f is filtering by the filters and f together. */
  lemma {:induction false} WhereStep(rows: seq<Row>, filters: seq<Filter>, f: Filter, numText: real -> string)
    ensures Where(Where(rows, filters, numText), [f], numText) == Where(rows, filters + [f], numText)
  {
    if rows != [] {
      var init := rows[..|rows| - 1];
      var row := rows[|rows| - 1];
      WhereStep(init, filters, f, numText);
      MatchesAllSnoc(row, filters, f, numText);
      var w := Where(init, filters, numText);
      if MatchesAll(row, filters, numText) {
        var ws := w + [row];
        assert ws[..|ws| - 1] == w;
        assert Where(rows, filters, numText) == ws;
      } else {
        assert Where(rows, filters, numText) == w;
      }
    }
  }

  /** Delete keeps exactly the rows failing some filter. */
  lemma {:induction false} RemoveMembers(rows: seq<Row>, filters: seq<Filter>, numText: real -> string)
    ensures forall row :: row in Remove(rows, filters, numText) <==> row in rows && !MatchesAll(row, filters, numText)
  {
    if rows != [] {
      var init := rows[..|rows| - 1];
      RemoveMembers(init, filters, numText);
      assert rows == init + [rows[|rows| - 1]];
    }
  }

  /** Delete removes as many rows as match. */
  lemma {:induction false} RemoveCount(rows: seq<Row>, filters: seq<Filter>, numText: real -> string)
    ensures |rows| - |Remove(rows, filters, numText)| == MatchCount(rows, filters, numText)
  {
    if rows != [] {
      RemoveCount(rows[..|rows| - 1], filters, numText);
    }
  }

  /** The selected and the kept rows together are the table. */
  lemma {:induction false} WhereRemovePartition(rows: seq<Row>, filters: seq<Filter>, numText: real -> string)
    ensures multiset(Where(rows, filters, numText)) + multiset(Remove(rows, filters, numText)) == multiset(rows)
  {
    if rows != [] {
      var init, row := rows[..|rows| - 1], rows[|rows| - 1];
      WhereRemovePartition(init, filters, numText);
      assert rows == init + [row];
      var w, k := Where(init, filters, numText), Remove(init, filters, numText);
      if MatchesAll(row, filters, numText) {
        assert Where(rows, filters, numText) == w + [row] && Remove(rows, filters, numText) == k;
      } else {
        assert Where(rows, filters, numText) == w && Remove(rows, filters, numText) == k + [row];
      }
    }
  }

  /** Without filters every row passes: delete empties the table and update touches every row. */
  lemma {:induction false} NoFiltersMatchAll(rows: seq<Row>, numText: real -> string)
    ensures Remove(rows, [], numText) == []
    ensures MatchCount(rows, [], numText) == |rows|
  {
    if rows != [] {
      NoFiltersMatchAll(rows[..|rows| - 1], numText);
    }
  }

  /**
   * `eq` compares printed forms: the text "5" matches the number 5 when
   * the number prints as "5", and a missing column matches the text
   * "undefined".
   */
  lemma EqComparesText(name: string, numText: real -> string)
    ensures numText(5.0) == "5" ==> Matches(map[name := Num(5.0)], Equals(name, Str("5")), numText)
    ensures Matches(map[], Equals(name, Str("undefined")), numText)
    ensures !Matches(map[name := Null], Equals(name, Str("")), numText)
  {
  }

  // ---------------------------------------------------------------- order and limit

  /** The sort key of a column: text lower-cased, numbers, or nothing comparable. */
  datatype Key = TextKey(t: string) | NumKey(n: real) | NoKey

  /** `undefined` compares false with everything; true and false compare as 1 and 0, null as 0. */
  function KeyOf(v: Option<Value>): Key
  {
    match v
    case None => NoKey
    case Some(Str(s)) => TextKey(Text.Lower(s))
    case Some(Num(x)) => NumKey(x)
    case Some(Bool(b)) => NumKey(if b then 1.0 else 0.0)
    case Some(Null) => NumKey(0.0)
  }

  /** `va < vb` on keys of the same kind; keys of different kinds are unordered. */
  predicate KeyLess(a: Key, b: Key)
  {
    match (a, b)
    case (TextKey(s), TextKey(t)) => Text.Less(s, t)
    case (NumKey(x), NumKey(y)) => x < y
    case _ => false
  }

  /** The comparator: row a goes first when its key is smaller (larger, descending). */
  predicate RowBefore(field: string, ascending: bool, a: Row, b: Row)
  {
    if ascending then KeyLess(KeyOf(Field(a, field)), KeyOf(Field(b, field)))
    else KeyLess(KeyOf(Field(b, field)), KeyOf(Field(a, field)))
  }

  function Before(field: string, ascending: bool): (Row, Row) -> bool
  {
    (a: Row, b: Row) => RowBefore(field, ascending, a, b)
  }

  /** The rows sorted stably when an order column is set; unchanged otherwise. */
  function Ordered(rows: seq<Row>, order: Option<string>, ascending: bool): seq<Row>
  {
    if order.Some? && order.value != "" then StableSort.Sort(rows, Before(order.value, ascending)) else rows
  }

  /** Every row's order column is text, or every one is a number (or boolean or null), or no row has it. */
  predicate Uniform(rows: seq<Row>, field: string)
  {
    || (forall i | 0 <= i < |rows| :: KeyOf(Field(rows[i], field)).TextKey?)
    || (forall i | 0 <= i < |rows| :: KeyOf(Field(rows[i], field)).NumKey?)
    || (forall i | 0 <= i < |rows| :: KeyOf(Field(rows[i], field)).NoKey?)
  }

  lemma KeyLessAsymmetric(a: Key, b: Key)
    ensures KeyLess(a, b) ==> !KeyLess(b, a)
  {
    if a.TextKey? && b.TextKey? {
      Text.LessTrichotomy(a.t, b.t);
    }
  }

  /** Incomparability is transitive among keys of one kind. */
  lemma KeyTiesTransitive(a: Key, b: Key, c: Key)
    requires (a.TextKey? && b.TextKey? && c.TextKey?) || (a.NumKey? && b.NumKey? && c.NumKey?) || (a.NoKey? && b.NoKey? && c.NoKey?)
    ensures !KeyLess(a, b) && !KeyLess(b, c) ==> !KeyLess(a, c)
  {
    if a.TextKey? {
      Text.LessTrichotomy(a.t, b.t);
      Text.LessTrichotomy(b.t, c.t);
      Text.LessTrichotomy(a.t, c.t);
      if Text.Less(b.t, a.t) && Text.Less(c.t, b.t) {
        Text.LessTransitive(c.t, b.t, a.t);
      }
    }
  }

  /** On a uniform column the comparator is a strict weak order, in either direction. */
  lemma BeforeWeakOrder(rows: seq<Row>, field: string, ascending: bool)
    requires Uniform(rows, field)
    ensures StableSort.WeakOrderOn(Before(field, ascending), rows)
  {
    var before := Before(field, ascending);
    forall a, b | a in rows && b in rows ensures before(a, b) ==> !before(b, a) {
      KeyLessAsymmetric(KeyOf(Field(a, field)), KeyOf(Field(b, field)));
      KeyLessAsymmetric(KeyOf(Field(b, field)), KeyOf(Field(a, field)));
    }
    forall a, b, c | a in rows && b in rows && c in rows ensures !before(a, b) && !before(b, c) ==> !before(a, c) {
      var ka, kb, kc := KeyOf(Field(a, field)), KeyOf(Field(b, field)), KeyOf(Field(c, field));
      var ia :| 0 <= ia < |rows| && rows[ia] == a;
      var ib :| 0 <= ib < |rows| && rows[ib] == b;
      var ic :| 0 <= ic < |rows| && rows[ic] == c;
      if ascending {
        KeyTiesTransitive(ka, kb, kc);
      } else {
        KeyTiesTransitive(kc, kb, ka);
      }
    }
  }

  /**
   * With an order column of one kind the result is a rearrangement of the
   * rows, sorted ascending (or descending), and rows with equal keys keep
   * their table order.
   */
  lemma OrderedSpec(rows: seq<Row>, field: string, ascending: bool, x: Row)
    requires field != "" && Uniform(rows + [x], field)
    ensures var r := Ordered(rows, Some(field), ascending);
      && multiset(r) == multiset(rows)
      && StableSort.Sorted(r, Before(field, ascending))
      && StableSort.TiedWith(r, x, Before(field, ascending)) == StableSort.TiedWith(rows, x, Before(field, ascending))
  {
    assert Uniform(rows, field) by {
      forall i | 0 <= i < |rows| ensures rows[i] == (rows + [x])[i] {
      }
    }
    BeforeWeakOrder(rows, field, ascending);
    BeforeWeakOrder(rows + [x], field, ascending);
    StableSort.SortSorted(rows, Before(field, ascending));
    StableSort.SortStable(rows, x, Before(field, ascending));
  }

  /** Text keys compare without regard to ASCII case: names differing only in case are tied. */
  lemma OrderIgnoresCase(field: string, ascending: bool, s: string, t: string)
    requires Text.Lower(s) == Text.Lower(t)
    ensures StableSort.Tied(Before(field, ascending), map[field := Str(s)], map[field := Str(t)])
  {
    Text.LessIrreflexive(Text.Lower(s));
  }

  /** Where `result.slice(0, n)` ends: n from the front, or |n| short of the end for negative n. */
  function SliceEnd(length: nat, n: int): (e: nat)
    ensures e <= length
  {
    if n >= 0 then (if n < length then n else length)
    else if length + n > 0 then length + n else 0
  }

  /** `limit(n)`: only a set, non-zero limit cuts the rows. */
  function Limited(rows: seq<Row>, limit: Option<int>): seq<Row>
  {
    if limit.Some? && limit.value != 0 then rows[..SliceEnd(|rows|, limit.value)] else rows
  }

  /** A positive limit keeps the first n rows (all when fewer); zero or no limit keeps everything. */
  lemma LimitSpec(rows: seq<Row>, limit: Option<int>)
    ensures limit.None? || limit == Some(0) ==> Limited(rows, limit) == rows
    ensures limit.Some? && limit.value > 0 ==>
      && |Limited(rows, limit)| == (if limit.value < |rows| then limit.value else |rows|)
      && Limited(rows, limit) <= rows
    ensures limit.Some? && limit.value < 0 ==>
      && |Limited(rows, limit)| == (if |rows| + limit.value > 0 then |rows| + limit.value else 0)
      && Limited(rows, limit) <= rows
  {
  }

  // ---------------------------------------------------------------- queries

  datatype Operation = Select | Insert(rows: seq<Row>) | Update(changes: Row) | Delete

  /** What a builder has recorded. */
  datatype Query = Query(table: string, filters: seq<Filter>, order: Option<string>, ascending: bool,
                         limit: Option<int>, op: Operation)

  datatype Response = Rows(rows: seq<Row>) | Count(count: nat)

  /** A selection: filtered, then ordered, then cut to the limit. */
  function Selected(rows: seq<Row>, q: Query, numText: real -> string): seq<Row>
  {
    Limited(Ordered(Where(rows, q.filters, numText), q.order, q.ascending), q.limit)
  }

  /**
   * An inserted row: its id, or the generated one when the row has none
   * (a falsy id present in the row stays), its own columns, and the time
   * of insertion as created_at.
   */
  function NewRow(row: Row, generatedId: string, now: string): Row
  {
    (map["id" := if Truthy(Field(row, "id")) then row["id"] else Str(generatedId)] + row)["created_at" := Str(now)]
  }

  /** The rows an insert adds, the k-th given the k-th generated id. */
  function NewRows(data: seq<Row>, genId: nat -> string, now: string): (r: seq<Row>)
    ensures |r| == |data|
  {
    seq(|data|, k requires 0 <= k < |data| => NewRow(data[k], genId(k), now))
  }

  /** Every row matching all filters gets the changed columns; the others stay. */
  function Updated(rows: seq<Row>, filters: seq<Filter>, changes: Row, numText: real -> string): (r: seq<Row>)
    ensures |r| == |rows|
  {
    if rows == [] then []
    else
      var row := rows[|rows| - 1];
      Updated(rows[..|rows| - 1], filters, changes, numText)
        + [if MatchesAll(row, filters, numText) then row + changes else row]
  }

  /**
   * `_execute`: the response, or an error when the operation needs a table
   * that does not exist, and the tables afterwards.
   */
  function Run(tables: map<string, seq<Row>>, q: Query, numText: real -> string, genId: nat -> string, now: string)
    : (Result<Response>, map<string, seq<Row>>)
  {
    match q.op
    case Select =>
      var rows := if q.table in tables then tables[q.table] else [];
      (Ok(Rows(Selected(rows, q, numText))), tables)
    case Insert(data) =>
      if q.table !in tables then (Err("table is not iterable"), tables)
      else
        var added := NewRows(data, genId, now);
        (Ok(Rows(added)), tables[q.table := tables[q.table] + added])
    case Update(changes) =>
      if q.table !in tables then (Err("table has no rows to map"), tables)
      else
        var rows := tables[q.table];
        (Ok(Count(MatchCount(rows, q.filters, numText))), tables[q.table := Updated(rows, q.filters, changes, numText)])
    case Delete =>
      if q.table !in tables then (Err("table has no rows to filter"), tables)
      else
        var rows := tables[q.table];
        var kept := Remove(rows, q.filters, numText);
        (Ok(Count(|rows| - |kept|)), tables[q.table := kept])
  }

  /** A selection never changes the database, and an unknown table selects nothing. */
  lemma SelectReadOnly(tables: map<string, seq<Row>>, q: Query, numText: real -> string, genId: nat -> string, now: string)
    requires q.op == Select
    ensures Run(tables, q, numText, genId, now).1 == tables
    ensures Run(tables, q, numText, genId, now).0.Ok?
    ensures q.table !in tables ==> Run(tables, q, numText, genId, now).0 == Ok(Rows([]))
  {
  }

  /**
   * A selection returns whole table rows that pass every filter; without an
   * order and a limit it returns exactly the matching rows in table order.
   */
  lemma SelectSpec(tables: map<string, seq<Row>>, q: Query, numText: real -> string, genId: nat -> string, now: string)
    requires q.op == Select && q.table in tables
    ensures var r := Run(tables, q, numText, genId, now).0;
      && r.Ok? && r.value.Rows?
      && (forall row | row in r.value.rows :: row in tables[q.table] && MatchesAll(row, q.filters, numText))
      && (q.order.None? && q.limit.None? ==> r.value.rows == Where(tables[q.table], q.filters, numText))
  {
    var rows := tables[q.table];
    var w := Where(rows, q.filters, numText);
    WhereSpec(rows, q.filters, numText);
    var o := Ordered(w, q.order, q.ascending);
    assert multiset(o) == multiset(w);
    var r := Limited(o, q.limit);
    forall row | row in r ensures row in rows && MatchesAll(row, q.filters, numText) {
      assert row in o;
      assert row in multiset(w);
    }
  }

  /** Insert appends the new rows, in the given order, after the table's rows. */
  lemma InsertSpec(tables: map<string, seq<Row>>, q: Query, numText: real -> string, genId: nat -> string, now: string)
    requires q.op.Insert? && q.table in tables
    ensures var (r, after) := Run(tables, q, numText, genId, now);
      && r == Ok(Rows(NewRows(q.op.rows, genId, now)))
      && after.Keys == tables.Keys
      && after[q.table][..|tables[q.table]|] == tables[q.table]
      && after[q.table][|tables[q.table]|..] == NewRows(q.op.rows, genId, now)
      && forall t | t in tables && t != q.table :: after[t] == tables[t]
  {
  }

  /**
   * An inserted row keeps every column it was given except created_at,
   * which is the time of insertion, and always has an id: its own, or the
   * generated one when it had none.
   */
  lemma NewRowSpec(row: Row, generatedId: string, now: string)
    ensures var r := NewRow(row, generatedId, now);
      && r.Keys == row.Keys + {"id", "created_at"}
      && r["created_at"] == Str(now)
      && (forall c | c in row && c != "created_at" :: r[c] == row[c])
      && ("id" !in row ==> r["id"] == Str(generatedId))
  {
  }

  /** Update keeps count and order, rewrites exactly the matching rows, and counts them. */
  lemma {:induction false} UpdatedAt(rows: seq<Row>, filters: seq<Filter>, changes: Row, numText: real -> string, i: nat)
    requires i < |rows|
    ensures Updated(rows, filters, changes, numText)[i]
         == if MatchesAll(rows[i], filters, numText) then rows[i] + changes else rows[i]
  {
    if i < |rows| - 1 {
      UpdatedAt(rows[..|rows| - 1], filters, changes, numText, i);
    }
  }

  lemma UpdateSpec(tables: map<string, seq<Row>>, q: Query, numText: real -> string, genId: nat -> string, now: string)
    requires q.op.Update? && q.table in tables
    ensures var (r, after) := Run(tables, q, numText, genId, now);
      && r == Ok(Count(MatchCount(tables[q.table], q.filters, numText)))
      && |after[q.table]| == |tables[q.table]|
      && (forall i | 0 <= i < |tables[q.table]| ::
            after[q.table][i] == if MatchesAll(tables[q.table][i], q.filters, numText) then tables[q.table][i] + q.op.changes
                                 else tables[q.table][i])
      && (q.filters == [] ==> r == Ok(Count(|tables[q.table]|)))
      && forall t | t in tables && t != q.table :: after[t] == tables[t]
  {
    var rows := tables[q.table];
    forall i | 0 <= i < |rows|
      ensures Updated(rows, q.filters, q.op.changes, numText)[i]
           == if MatchesAll(rows[i], q.filters, numText) then rows[i] + q.op.changes else rows[i]
    {
      UpdatedAt(rows, q.filters, q.op.changes, numText, i);
    }
    NoFiltersMatchAll(rows, numText);
  }

  /** Delete removes exactly the matching rows, keeps the others in order, and counts what it removed. */
  lemma DeleteSpec(tables: map<string, seq<Row>>, q: Query, numText: real -> string, genId: nat -> string, now: string)
    requires q.op == Delete && q.table in tables
    ensures var (r, after) := Run(tables, q, numText, genId, now);
      && after[q.table] == Remove(tables[q.table], q.filters, numText)
      && (forall row :: row in after[q.table] <==> row in tables[q.table] && !MatchesAll(row, q.filters, numText))
      && multiset(Where(tables[q.table], q.filters, numText)) + multiset(after[q.table]) == multiset(tables[q.table])
      && r == Ok(Count(MatchCount(tables[q.table], q.filters, numText)))
      && (q.filters == [] ==> after[q.table] == [])
      && forall t | t in tables && t != q.table :: after[t] == tables[t]
  {
    RemoveMembers(tables[q.table], q.filters, numText);
    RemoveCount(tables[q.table], q.filters, numText);
    WhereRemovePartition(tables[q.table], q.filters, numText);
    NoFiltersMatchAll(tables[q.table], numText);
  }

  /** Insert, update and delete of a table that does not exist fail and change nothing. */
  lemma UnknownTable(tables: map<string, seq<Row>>, q: Query, numText: real -> string, genId: nat -> string, now: string)
    requires q.table !in tables && q.op != Select
    ensures Run(tables, q, numText, genId, now).0.Err?
    ensures Run(tables, q, numText, genId, now).1 == tables
  {
  }

  // ---------------------------------------------------------------- the database

  /** The four tables of the demo. */
  function Seed(loans: seq<Row>, budget: seq<Row>, expenses: seq<Row>, payments: seq<Row>): (m: map<string, seq<Row>>)
    ensures m.Keys == {"loans", "budget_config", "expenses", "payments"}
  {
    map["loans" := loans, "budget_config" := budget, "expenses" := expenses, "payments" := payments]
  }

  /** The module's `db`, with the demo data it starts from and returns to. */
  class Database {
    const seed: map<string, seq<Row>>
    var tables: map<string, seq<Row>>

    constructor(loans: seq<Row>, budget: seq<Row>, expenses: seq<Row>, payments: seq<Row>)
      ensures seed == Seed(loans, budget, expenses, payments) && tables == seed
    {
      seed := Seed(loans, budget, expenses, payments);
      tables := Seed(loans, budget, expenses, payments);
    }

    /** `resetDemoData`: every table back to its seed rows. */
    method Reset()
      modifies this
      ensures tables == seed
    {
      tables := seed;
    }
  }

  /** `MockQueryBuilder`: a query recorded call by call, then executed. */
  class QueryBuilder {
    const db: Database
    const table: string
    var filters: seq<Filter>
    var order: Option<string>
    var ascending: bool
    var limit: Option<int>
    var op: Operation
    var columns: string

    function Recorded(): Query
      reads this
    {
      Query(table, filters, order, ascending, limit, op)
    }

    /** `supabase.from(table)`: a selection of everything, unfiltered, unordered, unlimited. */
    constructor(db: Database, table: string)
      ensures this.db == db && Recorded() == Query(table, [], None, true, None, Select) && columns == "*"
    {
      this.db := db;
      this.table := table;
      filters := [];
      order := None;
      ascending := true;
      limit := None;
      op := Select;
      columns := "*";
    }

    /** `select(cols)`: the columns are recorded; every row is returned whole. */
    method SelectColumns(cols: string)
      modifies this
      ensures Recorded() == old(Recorded()).(op := Select) && columns == cols
    {
      op := Select;
      columns := cols;
    }

    method Eq(field: string, value: Value)
      modifies this
      ensures Recorded() == old(Recorded()).(filters := old(filters) + [Equals(field, value)])
      ensures columns == old(columns)
    {
      filters := filters + [Equals(field, value)];
    }

    /** `order(field, opts)`: descending only when opts.ascending is exactly false. */
    method Order(field: string, ascendingOption: Option<Value>)
      modifies this
      ensures Recorded() == old(Recorded()).(order := Some(field), ascending := ascendingOption != Some(Bool(false)))
      ensures columns == old(columns)
    {
      order := Some(field);
      ascending := ascendingOption != Some(Bool(false));
    }

    method Limit(n: int)
      modifies this
      ensures Recorded() == old(Recorded()).(limit := Some(n)) && columns == old(columns)
    {
      limit := Some(n);
    }

    method UpdateWith(changes: Row)
      modifies this
      ensures Recorded() == old(Recorded()).(op := Update(changes)) && columns == old(columns)
    {
      op := Update(changes);
    }

    method DeleteRows()
      modifies this
      ensures Recorded() == old(Recorded()).(op := Delete) && columns == old(columns)
    {
      op := Delete;
    }

    /** `insert(data)`: records the rows and runs the insert at once. */
    method InsertRows(data: seq<Row>, numText: real -> string, genId: nat -> string, now: string) returns (r: Result<Response>)
      modifies this, db
      ensures Recorded() == old(Recorded()).(op := Insert(data)) && columns == old(columns)
      ensures (r, db.tables) == Run(old(db.tables), Recorded(), numText, genId, now)
    {
      op := Insert(data);
      r := Execute(numText, genId, now);
    }

    /** `insert(data)` given one object rather than an array: it is wrapped as a single row. */
    method InsertRow(row: Row, numText: real -> string, genId: nat -> string, now: string) returns (r: Result<Response>)
      modifies this, db
      ensures Recorded() == old(Recorded()).(op := Insert([row])) && columns == old(columns)
      ensures (r, db.tables) == Run(old(db.tables), Recorded(), numText, genId, now)
    {
      r := InsertRows([row], numText, genId, now);
    }

    /** `_execute`: runs the recorded query against the database. */
    method Execute(numText: real -> string, genId: nat -> string, now: string) returns (r: Result<Response>)
      modifies db
      ensures (r, db.tables) == Run(old(db.tables), Recorded(), numText, genId, now)
    {
      match op
      case Select =>
        var rows := if table in db.tables then db.tables[table] else [];
        var result := SelectRows(rows, Recorded(), numText);
        r := Ok(Rows(result));
      case Insert(data) =>
        if table !in db.tables {
          r := Err("table is not iterable");
        } else {
          var added := NewRows(data, genId, now);
          db.tables := db.tables[table := db.tables[table] + added];
          r := Ok(Rows(added));
        }
      case Update(changes) =>
        if table !in db.tables {
          r := Err("table has no rows to map");
        } else {
          var rows, count := UpdateRows(db.tables[table], filters, changes, numText);
          db.tables := db.tables[table := rows];
          r := Ok(Count(count));
        }
      case Delete =>
        if table !in db.tables {
          r := Err("table has no rows to filter");
        } else {
          var before := |db.tables[table]|;
          db.tables := db.tables[table := Remove(db.tables[table], filters, numText)];
          r := Ok(Count(before - |db.tables[table]|));
        }
    }
  }

  /** The select branch: one filter pass per `eq`, then the stable sort, then the slice. */
  method SelectRows(rows: seq<Row>, q: Query, numText: real -> string) returns (result: seq<Row>)
    ensures result == Selected(rows, q, numText)
  {
    result := rows;
    WhereNone(rows, numText);
    for i := 0 to |q.filters|
      invariant result == Where(rows, q.filters[..i], numText)
    {
      WhereStep(rows, q.filters[..i], q.filters[i], numText);
      assert q.filters[..i] + [q.filters[i]] == q.filters[..i + 1];
      result := Where(result, [q.filters[i]], numText);
    }
    assert q.filters[..|q.filters|] == q.filters;
    if q.order.Some? && q.order.value != "" {
      result := StableSort.Sort(result, Before(q.order.value, q.ascending));
    }
    if q.limit.Some? && q.limit.value != 0 {
      result := result[..SliceEnd(|result|, q.limit.value)];
    }
  }

  /** No filters select every row. */
  lemma {:induction false} WhereNone(rows: seq<Row>, numText: real -> string)
    ensures Where(rows, [], numText) == rows
  {
    if rows != [] {
      WhereNone(rows[..|rows| - 1], numText);
    }
  }

  /** The update branch: each row mapped, `updated` counting the matches. */
  method UpdateRows(rows: seq<Row>, filters: seq<Filter>, changes: Row, numText: real -> string)
    returns (result: seq<Row>, updated: nat)
    ensures result == Updated(rows, filters, changes, numText) && updated == MatchCount(rows, filters, numText)
  {
    result := [];
    updated := 0;
    for i := 0 to |rows|
      invariant result == Updated(rows[..i], filters, changes, numText)
      invariant updated == MatchCount(rows[..i], filters, numText)
    {
      assert rows[..i + 1][..i] == rows[..i];
      var row := rows[i];
      if MatchesAll(row, filters, numText) {
        updated := updated + 1;
        result := result + [row + changes];
      } else {
        result := result + [row];
      }
    }
    assert rows[..|rows|] == rows;
  }
}
