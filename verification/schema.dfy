/** The persisted schema: the `managers` and `deals` tables of models.py.
    A table is a map from primary key to row, so "at most one row per id"
    holds by construction; `KeyedById` adds that every row sits under its
    own id. */
module Schema {

  /** A loosely-typed JSON scalar as it arrives from the CRM and as it is
      handed, unconverted, to a text or boolean column. */
  datatype Value =
    | Null
    | Bool(b: bool)
    | Int(i: int)
    | Float(x: real)
    | Str(s: string)

  /** A flat JSON object. */
  type RawRecord = map<string, Value>

  /** A row of `managers`; `id` is the primary key. */
  datatype Manager = Manager(id: int, name: Value, lastName: Value, isAdmin: Value)

  /** A row of `deals`; `id` is the primary key. Every text or date-like
      column holds the CRM's value uninterpreted; only `opportunity`
      (a Float column) and `assignedById` (an Integer column) were converted
      on the way in. `assignedById` refers to `managers.id`, but SQLite does
      not enforce foreign keys by default, so nothing here requires the
      manager to exist. */
  datatype DealRow = DealRow(
    id: int,
    title: Value,
    typeId: Value,
    stageId: Value,
    currencyId: Value,
    opportunity: real,
    beginDate: Value,
    closeDate: Value,
    assignedById: int,
    dateCreate: Value,
    dateModify: Value,
    sourceId: Value,
    lastActivityTime: Value)

  datatype Store = Store(managers: map<int, Manager>, deals: map<int, DealRow>)

  /** Every row is stored under its own primary key. */
  ghost predicate KeyedById(st: Store) {
    && (forall k :: k in st.managers ==> st.managers[k].id == k)
    && (forall k :: k in st.deals ==> st.deals[k].id == k)
  }

  /** The set of primary keys of `rows`. */
  function Ids(rows: seq<DealRow>): set<int> {
    set i | 0 <= i < |rows| :: rows[i].id
  }

  /** No two rows of `rows` share a primary key. */
  predicate DistinctIds(rows: seq<DealRow>) {
    forall i, j :: 0 <= i < j < |rows| ==> rows[i].id != rows[j].id
  }

  /** Rows with the same ids, position by position, have the same key set
      and are distinct together. */
  lemma SameIds(rows: seq<DealRow>, rows': seq<DealRow>)
    requires |rows| == |rows'|
    requires forall i :: 0 <= i < |rows| ==> rows[i].id == rows'[i].id
    ensures Ids(rows) == Ids(rows')
    ensures DistinctIds(rows) <==> DistinctIds(rows')
  {
    forall k | k in Ids(rows) ensures k in Ids(rows') {
      var i :| 0 <= i < |rows| && rows[i].id == k;
      assert rows'[i].id == k;
    }
    forall k | k in Ids(rows') ensures k in Ids(rows) {
      var i :| 0 <= i < |rows'| && rows'[i].id == k;
      assert rows[i].id == k;
    }
  }

  /** The table holding exactly `rows`, keyed by id (later rows win, which
      cannot matter when the ids are distinct). */
  function RowsById(rows: seq<DealRow>): map<int, DealRow> {
    if |rows| == 0 then map[]
    else RowsById(rows[..|rows| - 1])[rows[|rows| - 1].id := rows[|rows| - 1]]
  }

  /** The table's keys are the rows' ids. */
  lemma {:induction false} RowsByIdKeys(rows: seq<DealRow>)
    ensures RowsById(rows).Keys == Ids(rows)
  {
    if |rows| > 0 {
      var init := rows[..|rows| - 1];
      RowsByIdKeys(init);
      assert Ids(rows) == Ids(init) + {rows[|rows| - 1].id} by {
        forall k | k in Ids(rows) ensures k in Ids(init) + {rows[|rows| - 1].id} {
          var i :| 0 <= i < |rows| && rows[i].id == k;
          if i < |rows| - 1 {
            assert init[i].id == k;
          }
        }
        forall k | k in Ids(init) ensures k in Ids(rows) {
          var i :| 0 <= i < |init| && init[i].id == k;
          assert rows[i].id == k;
        }
      }
    }
  }

  /** With distinct ids, every row is found under its own id. */
  lemma {:induction false} RowsByIdLookup(rows: seq<DealRow>)
    requires DistinctIds(rows)
    ensures forall i :: 0 <= i < |rows| ==> rows[i].id in RowsById(rows) && RowsById(rows)[rows[i].id] == rows[i]
  {
    if |rows| > 0 {
      var init := rows[..|rows| - 1];
      RowsByIdLookup(init);
    }
  }

  /** Distinct ids give a table with one row per input row. */
  lemma {:induction false} RowsByIdSize(rows: seq<DealRow>)
    requires DistinctIds(rows)
    ensures |RowsById(rows)| == |rows|
  {
    if |rows| > 0 {
      var init := rows[..|rows| - 1];
      var last := rows[|rows| - 1];
      RowsByIdSize(init);
      RowsByIdKeys(init);
      assert last.id !in Ids(init);
    }
  }

  /** Every row of the table sits under its own id. */
  lemma {:induction false} RowsByIdKeyed(rows: seq<DealRow>)
    ensures forall k :: k in RowsById(rows) ==> RowsById(rows)[k].id == k
  {
    if |rows| > 0 {
      RowsByIdKeyed(rows[..|rows| - 1]);
    }
  }

  /** INSERT of `rows` into the deals table, all keys fresh. */
  function InsertDeals(table: map<int, DealRow>, rows: seq<DealRow>): (t: map<int, DealRow>)
    requires DistinctIds(rows)
    requires Ids(rows) !! table.Keys
    ensures t.Keys == table.Keys + Ids(rows)
    ensures forall k :: k in table ==> t[k] == table[k]
    ensures forall i :: 0 <= i < |rows| ==> t[rows[i].id] == rows[i]
    ensures |t| == |table| + |rows|
    ensures (forall k :: k in table ==> table[k].id == k) ==> forall k :: k in t ==> t[k].id == k
  {
    RowsByIdKeys(rows);
    RowsByIdLookup(rows);
    RowsByIdKeyed(rows);
    RowsByIdSize(rows);
    var added := RowsById(rows);
    MapUnion(table, added);
    table + added
  }

  /** The union of two maps with disjoint keys. */
  lemma MapUnion<K, V>(a: map<K, V>, b: map<K, V>)
    requires a.Keys !! b.Keys
    ensures (a + b).Keys == a.Keys + b.Keys
    ensures |a + b| == |a| + |b|
    ensures forall k :: k in a ==> (a + b)[k] == a[k]
    ensures forall k :: k in b ==> (a + b)[k] == b[k]
  {
    assert (a + b).Keys == a.Keys + b.Keys;
    assert |a.Keys + b.Keys| == |a.Keys| + |b.Keys|;
  }
}
