/** `sync_data` of bitrix_client.py: the CRM profile and deal list are
    normalised into one Manager and a sequence of deal rows, every record is
    `session.add`-ed, and the session is committed once. `add` inserts; it
    does not merge, so a primary key that is already stored, or repeated in
    the batch, makes the commit raise and the transaction roll back. */
module Sync {
  import opened Wrappers
  import opened Schema

  /** Python's `int(...)` and `float(...)` applied to a JSON scalar, kept
      abstract: `None` wherever Python raises. (Python's `int` also accepts a
      sign, surrounding whitespace and `_` separators in strings.) */
  datatype Coercions = Coercions(toInt: Value -> Option<int>, toFloat: Value -> Option<real>)

  /** The few facts about Python's conversions the round-trip lemmas use:
      numbers convert to themselves and `None` converts to nothing. */
  ghost predicate Pythonic(c: Coercions) {
    && c.toInt(Null) == None
    && c.toFloat(Null) == None
    && (forall i :: c.toInt(Int(i)) == Some(i))
    && (forall x :: c.toFloat(Float(x)) == Some(x))
  }

  /** How a response carries its "result" key. */
  datatype Slot<T> = Missing | JsonNull | Given(v: T)

  /** What the Python code raises, by cause. */
  datatype SyncError =
    | ProfileMissing                      // profile["ID"] on None: TypeError
    | DealListNull                        // for d in None: TypeError
    | MissingKey(key: string)             // KeyError
    | NotAnInt(key: string, raw: Value)   // int(...) raised
    | NotAFloat(key: string, raw: Value)  // float(...) raised
    | IntegrityError                      // UNIQUE constraint failed at commit

  const ManagerKeys: set<string> := {"ID", "NAME", "LAST_NAME", "ADMIN"}

  /** The deal keys copied verbatim into text/date columns. */
  const VerbatimDealKeys: set<string> :=
    {"TITLE", "TYPE_ID", "STAGE_ID", "CURRENCY_ID", "BEGINDATE", "CLOSEDATE",
     "DATE_CREATE", "DATE_MODIFY", "SOURCE_ID", "LAST_ACTIVITY_TIME"}

  const DealKeys: set<string> := VerbatimDealKeys + {"ID", "OPPORTUNITY", "ASSIGNED_BY_ID"}

  /** `record[key]`. */
  function Field(record: RawRecord, key: string): Result<Value, SyncError> {
    if key in record then Success(record[key]) else Failure(MissingKey(key))
  }

  /** `int(record[key])`. */
  function IntField(record: RawRecord, key: string, c: Coercions): Result<int, SyncError> {
    var v :- Field(record, key);
    c.toInt(v).OrFail(NotAnInt(key, v))
  }

  /** `float(record[key])`. */
  function FloatField(record: RawRecord, key: string, c: Coercions): Result<real, SyncError> {
    var v :- Field(record, key);
    c.toFloat(v).OrFail(NotAFloat(key, v))
  }

  /** The Manager built from the profile, fields read in keyword order. */
  function NormalizeManager(p: RawRecord, c: Coercions): (r: Result<Manager, SyncError>)
    ensures r.Success? <==> ManagerKeys <= p.Keys && c.toInt(p["ID"]).Some?
    ensures r.Success? ==>
              && c.toInt(p["ID"]) == Some(r.value.id)
              && r.value.name == p["NAME"]
              && r.value.lastName == p["LAST_NAME"]
              && r.value.isAdmin == p["ADMIN"]
    ensures r.Failure? ==>
              || (r.error.MissingKey? && r.error.key in ManagerKeys && r.error.key !in p)
              || ("ID" in p && r.error == NotAnInt("ID", p["ID"]))
  {
    var id :- IntField(p, "ID", c);
    var name :- Field(p, "NAME");
    var lastName :- Field(p, "LAST_NAME");
    var isAdmin :- Field(p, "ADMIN");
    Success(Manager(id, name, lastName, isAdmin))
  }

  /** The deal row built from one element of the deal list, fields read in
      keyword order. */
  function NormalizeDeal(d: RawRecord, c: Coercions): (r: Result<DealRow, SyncError>)
    ensures r.Success? <==>
              && DealKeys <= d.Keys
              && c.toInt(d["ID"]).Some?
              && c.toFloat(d["OPPORTUNITY"]).Some?
              && c.toInt(d["ASSIGNED_BY_ID"]).Some?
    ensures r.Success? ==>
              && c.toInt(d["ID"]) == Some(r.value.id)
              && c.toFloat(d["OPPORTUNITY"]) == Some(r.value.opportunity)
              && c.toInt(d["ASSIGNED_BY_ID"]) == Some(r.value.assignedById)
              && r.value.title == d["TITLE"]
              && r.value.typeId == d["TYPE_ID"]
              && r.value.stageId == d["STAGE_ID"]
              && r.value.currencyId == d["CURRENCY_ID"]
              && r.value.beginDate == d["BEGINDATE"]
              && r.value.closeDate == d["CLOSEDATE"]
              && r.value.dateCreate == d["DATE_CREATE"]
              && r.value.dateModify == d["DATE_MODIFY"]
              && r.value.sourceId == d["SOURCE_ID"]
              && r.value.lastActivityTime == d["LAST_ACTIVITY_TIME"]
    ensures r.Failure? ==>
              || (r.error.MissingKey? && r.error.key in DealKeys && r.error.key !in d)
              || ("ID" in d && r.error == NotAnInt("ID", d["ID"]))
              || ("OPPORTUNITY" in d && r.error == NotAFloat("OPPORTUNITY", d["OPPORTUNITY"]))
              || ("ASSIGNED_BY_ID" in d && r.error == NotAnInt("ASSIGNED_BY_ID", d["ASSIGNED_BY_ID"]))
  {
    var id :- IntField(d, "ID", c);
    var title :- Field(d, "TITLE");
    var typeId :- Field(d, "TYPE_ID");
    var stageId :- Field(d, "STAGE_ID");
    var currencyId :- Field(d, "CURRENCY_ID");
    var opportunity :- FloatField(d, "OPPORTUNITY", c);
    var beginDate :- Field(d, "BEGINDATE");
    var closeDate :- Field(d, "CLOSEDATE");
    var assignedById :- IntField(d, "ASSIGNED_BY_ID", c);
    var dateCreate :- Field(d, "DATE_CREATE");
    var dateModify :- Field(d, "DATE_MODIFY");
    var sourceId :- Field(d, "SOURCE_ID");
    var lastActivityTime :- Field(d, "LAST_ACTIVITY_TIME");
    Success(DealRow(id, title, typeId, stageId, currencyId, opportunity, beginDate,
                    closeDate, assignedById, dateCreate, dateModify, sourceId, lastActivityTime))
  }

  /** One row per element of the deal list, in input order; the first record
      that fails to normalise aborts the whole list with its error. */
  function NormalizeDeals(ds: seq<RawRecord>, c: Coercions): (r: Result<seq<DealRow>, SyncError>)
    ensures r.Success? <==> forall i :: 0 <= i < |ds| ==> NormalizeDeal(ds[i], c).Success?
    ensures r.Success? ==>
              && |r.value| == |ds|
              && forall i :: 0 <= i < |ds| ==> NormalizeDeal(ds[i], c) == Success(r.value[i])
  {
    if |ds| == 0 then Success([])
    else
      var head :- NormalizeDeal(ds[0], c);
      var tail :- NormalizeDeals(ds[1..], c);
      Success([head] + tail)
  }

  /** Record `i` is the first of `ds` that fails to normalise, with error `e`. */
  predicate FirstFailure(ds: seq<RawRecord>, c: Coercions, i: int, e: SyncError) {
    && 0 <= i < |ds|
    && NormalizeDeal(ds[i], c) == Failure(e)
    && forall j :: 0 <= j < i ==> NormalizeDeal(ds[j], c).Success?
  }

  /** The error of a failed deal list is that of its first failing record. */
  lemma {:induction false} NormalizeDealsFirstError(ds: seq<RawRecord>, c: Coercions)
    requires NormalizeDeals(ds, c).Failure?
    ensures exists i :: FirstFailure(ds, c, i, NormalizeDeals(ds, c).error)
  {
    var e := NormalizeDeals(ds, c).error;
    if NormalizeDeal(ds[0], c).Failure? {
      assert FirstFailure(ds, c, 0, e);
    } else {
      var tail := ds[1..];
      assert NormalizeDeals(tail, c).error == e;
      NormalizeDealsFirstError(tail, c);
      var i :| FirstFailure(tail, c, i, e);
      FirstFailureShift(ds, c, i, e);
    }
  }

  /** A first failure in the tail, behind a good head, is the first failure
      of the whole list, one position on. */
  lemma FirstFailureShift(ds: seq<RawRecord>, c: Coercions, i: int, e: SyncError)
    requires 0 < |ds| && NormalizeDeal(ds[0], c).Success?
    requires FirstFailure(ds[1..], c, i, e)
    ensures FirstFailure(ds, c, i + 1, e)
  {
    var tail := ds[1..];
    assert ds[i + 1] == tail[i];
    forall j | 0 <= j < i + 1
      ensures NormalizeDeal(ds[j], c).Success?
    {
      if j > 0 {
        assert ds[j] == tail[j - 1];
      }
    }
  }

  /** The records one run adds to the session. */
  datatype Batch = Batch(manager: Manager, deals: seq<DealRow>)

  /** The deal list as the loop sees it: `.get("result", [])`. */
  function DealList(dealList: Slot<seq<RawRecord>>): seq<RawRecord> {
    match dealList
    case Given(ds) => ds
    case _ => []
  }

  /** Everything `sync_data` computes before the commit, in its order:
      the profile (a missing or null "result" makes `profile["ID"]` raise),
      then the deal list (a null "result" makes the loop raise, a missing
      one is an empty list). */
  function Normalize(profile: Slot<RawRecord>, dealList: Slot<seq<RawRecord>>, c: Coercions)
    : (r: Result<Batch, SyncError>)
    ensures r.Success? ==> profile.Given? && !dealList.JsonNull?
    ensures r.Success? ==> |r.value.deals| == |DealList(dealList)|
    ensures r.Success? ==> NormalizeManager(profile.v, c) == Success(r.value.manager)
    ensures profile.Given? && dealList.Missing? ==>
              (r.Success? <==> NormalizeManager(profile.v, c).Success?)
    ensures r.Success? <==>
              && profile.Given? && NormalizeManager(profile.v, c).Success?
              && !dealList.JsonNull? && NormalizeDeals(DealList(dealList), c).Success?
    ensures r.Success? ==> r.value.deals == NormalizeDeals(DealList(dealList), c).value
  {
    var p :- match profile
             case Given(p) => Success(p)
             case _ => Failure(ProfileMissing);
    var manager :- NormalizeManager(p, c);
    var ds :- match dealList
              case JsonNull => Failure(DealListNull)
              case Missing => Success([])
              case Given(ds) => Success(ds);
    var deals :- NormalizeDeals(ds, c);
    Success(Batch(manager, deals))
  }

  /** Some deal of the batch reuses a stored deal id. */
  predicate ClashesWithStore(st: Store, rows: seq<DealRow>) {
    !(Ids(rows) !! st.deals.Keys)
  }

  /** `session.commit()` of the added records: plain INSERTs, so the commit
      succeeds only if every primary key is new; otherwise it raises and
      nothing is written. `assigned_by_id` is not checked against the
      managers table. */
  function Commit(st: Store, b: Batch): (r: Result<Store, SyncError>)
    ensures r.Success? <==>
              b.manager.id !in st.managers && DistinctIds(b.deals) && !ClashesWithStore(st, b.deals)
    ensures r.Failure? ==> r.error == IntegrityError
  {
    if b.manager.id in st.managers || !DistinctIds(b.deals) || ClashesWithStore(st, b.deals) then
      Failure(IntegrityError)
    else
      Success(Store(st.managers[b.manager.id := b.manager], InsertDeals(st.deals, b.deals)))
  }

  /** A successful commit adds the manager under its id and leaves every
      stored manager as it was. */
  lemma CommitAddsManager(st: Store, b: Batch)
    requires Commit(st, b).Success?
    ensures var st' := Commit(st, b).value;
            && st'.managers.Keys == st.managers.Keys + {b.manager.id}
            && st'.managers[b.manager.id] == b.manager
            && (forall k :: k in st.managers ==> st'.managers[k] == st.managers[k])
            && |st'.managers| == |st.managers| + 1
  {
    MapAdd(st.managers, b.manager.id, b.manager);
    assert Commit(st, b).value.managers == st.managers[b.manager.id := b.manager];
  }

  /** Adding a fresh key to a map. */
  lemma MapAdd<K, V>(m: map<K, V>, k: K, v: V)
    requires k !in m
    ensures m[k := v].Keys == m.Keys + {k}
    ensures |m[k := v]| == |m| + 1
    ensures forall j :: j in m ==> m[k := v][j] == m[j]
  {
  }

  /** A successful commit adds every deal of the batch under its id and
      leaves every stored deal as it was. */
  lemma CommitAddsDeals(st: Store, b: Batch)
    requires Commit(st, b).Success?
    ensures var st' := Commit(st, b).value;
            && st'.deals.Keys == st.deals.Keys + Ids(b.deals)
            && (forall i :: 0 <= i < |b.deals| ==> st'.deals[b.deals[i].id] == b.deals[i])
            && (forall k :: k in st.deals ==> st'.deals[k] == st.deals[k])
            && |st'.deals| == |st.deals| + |b.deals|
  {
    assert Commit(st, b).value.deals == InsertDeals(st.deals, b.deals);
  }

  /** A successful commit keeps both tables keyed by id. */
  lemma CommitKeepsKeys(st: Store, b: Batch)
    requires Commit(st, b).Success?
    requires KeyedById(st)
    ensures KeyedById(Commit(st, b).value)
  {
    assert Commit(st, b).value.deals == InsertDeals(st.deals, b.deals);
  }

  /** The store after a run, and what the run raised, if anything. */
  datatype SyncOutcome = SyncOutcome(store: Store, error: Option<SyncError>)

  /** One call of `sync_data` against the stored tables, with the two CRM
      responses given. */
  function SyncData(st: Store, profile: Slot<RawRecord>, dealList: Slot<seq<RawRecord>>, c: Coercions)
    : (r: SyncOutcome)
    ensures r.error.Some? ==> r.store == st
    ensures r.error.None? <==>
              Normalize(profile, dealList, c).Success? && Commit(st, Normalize(profile, dealList, c).value).Success?
  {
    match Normalize(profile, dealList, c)
    case Failure(e) => SyncOutcome(st, Some(e))
    case Success(b) =>
      match Commit(st, b)
      case Failure(e) => SyncOutcome(st, Some(e))
      case Success(st') => SyncOutcome(st', None)
  }

  /** Whatever a run does, both tables stay keyed by id. */
  lemma SyncKeepsKeys(st: Store, profile: Slot<RawRecord>, dealList: Slot<seq<RawRecord>>, c: Coercions)
    requires KeyedById(st)
    ensures KeyedById(SyncData(st, profile, dealList, c).store)
  {
    var n := Normalize(profile, dealList, c);
    if n.Success? && Commit(st, n.value).Success? {
      CommitKeepsKeys(st, n.value);
    }
  }

  /** The profile a Manager is re-serialised to: numbers as JSON numbers,
      everything else as stored. */
  function ManagerToRaw(m: Manager): RawRecord {
    map["ID" := Int(m.id), "NAME" := m.name, "LAST_NAME" := m.lastName, "ADMIN" := m.isAdmin]
  }

  /** The deal record a row is re-serialised to. */
  function DealToRaw(row: DealRow): RawRecord {
    map["ID" := Int(row.id), "TITLE" := row.title, "TYPE_ID" := row.typeId,
        "STAGE_ID" := row.stageId, "CURRENCY_ID" := row.currencyId,
        "OPPORTUNITY" := Float(row.opportunity), "BEGINDATE" := row.beginDate,
        "CLOSEDATE" := row.closeDate, "ASSIGNED_BY_ID" := Int(row.assignedById),
        "DATE_CREATE" := row.dateCreate, "DATE_MODIFY" := row.dateModify,
        "SOURCE_ID" := row.sourceId, "LAST_ACTIVITY_TIME" := row.lastActivityTime]
  }

  /** Normalising a re-serialised Manager gives it back. */
  lemma ManagerRoundTrip(m: Manager, c: Coercions)
    requires Pythonic(c)
    ensures NormalizeManager(ManagerToRaw(m), c) == Success(m)
  {
    assert ManagerKeys <= ManagerToRaw(m).Keys;
  }

  /** A re-serialised row has exactly the deal keys. */
  lemma DealToRawKeys(row: DealRow)
    ensures DealToRaw(row).Keys == DealKeys
  {
  }

  /** Where each column of a row lands in its re-serialised record. */
  lemma DealToRawLookups(row: DealRow)
    ensures var raw := DealToRaw(row);
            && raw["ID"] == Int(row.id)
            && raw["OPPORTUNITY"] == Float(row.opportunity)
            && raw["ASSIGNED_BY_ID"] == Int(row.assignedById)
            && raw["TITLE"] == row.title
            && raw["TYPE_ID"] == row.typeId
            && raw["STAGE_ID"] == row.stageId
            && raw["CURRENCY_ID"] == row.currencyId
            && raw["BEGINDATE"] == row.beginDate
            && raw["CLOSEDATE"] == row.closeDate
            && raw["DATE_CREATE"] == row.dateCreate
            && raw["DATE_MODIFY"] == row.dateModify
            && raw["SOURCE_ID"] == row.sourceId
            && raw["LAST_ACTIVITY_TIME"] == row.lastActivityTime
  {
  }

  /** Normalising a re-serialised deal row gives it back. */
  lemma DealRoundTrip(row: DealRow, c: Coercions)
    requires Pythonic(c)
    ensures NormalizeDeal(DealToRaw(row), c) == Success(row)
  {
    DealToRawKeys(row);
    DealToRawLookups(row);
  }

  /** A normalised deal re-serialises to its source record field for field:
      verbatim fields are equal and numeric fields convert to the same
      number. */
  lemma DealReserializes(d: RawRecord, c: Coercions)
    requires Pythonic(c)
    requires NormalizeDeal(d, c).Success?
    ensures var raw := DealToRaw(NormalizeDeal(d, c).value);
            && c.toInt(raw["ID"]) == c.toInt(d["ID"])
            && c.toFloat(raw["OPPORTUNITY"]) == c.toFloat(d["OPPORTUNITY"])
            && c.toInt(raw["ASSIGNED_BY_ID"]) == c.toInt(d["ASSIGNED_BY_ID"])
            && raw["TITLE"] == d["TITLE"]
            && raw["TYPE_ID"] == d["TYPE_ID"]
            && raw["STAGE_ID"] == d["STAGE_ID"]
            && raw["CURRENCY_ID"] == d["CURRENCY_ID"]
            && raw["BEGINDATE"] == d["BEGINDATE"]
            && raw["CLOSEDATE"] == d["CLOSEDATE"]
            && raw["DATE_CREATE"] == d["DATE_CREATE"]
            && raw["DATE_MODIFY"] == d["DATE_MODIFY"]
            && raw["SOURCE_ID"] == d["SOURCE_ID"]
            && raw["LAST_ACTIVITY_TIME"] == d["LAST_ACTIVITY_TIME"]
  {
    DealToRawLookups(NormalizeDeal(d, c).value);
  }

  /** A successful run adds exactly one manager row and one deal row per
      element of the deal list, and leaves every stored row as it was. */
  lemma SyncEffect(st: Store, profile: Slot<RawRecord>, dealList: Slot<seq<RawRecord>>, c: Coercions)
    requires SyncData(st, profile, dealList, c).error.None?
    ensures var st' := SyncData(st, profile, dealList, c).store;
            && |st'.managers| == |st.managers| + 1
            && |st'.deals| == |st.deals| + |DealList(dealList)|
            && (forall k :: k in st.managers ==> k in st'.managers && st'.managers[k] == st.managers[k])
            && (forall k :: k in st.deals ==> k in st'.deals && st'.deals[k] == st.deals[k])
  {
    CommitAddsManager(st, Normalize(profile, dealList, c).value);
    CommitAddsDeals(st, Normalize(profile, dealList, c).value);
  }

  /** A successful run stores the normalised profile under its id and every
      record of the deal list, normalised, under its own id. */
  lemma SyncStoresNormalizedRows(st: Store, profile: Slot<RawRecord>, dealList: Slot<seq<RawRecord>>,
                                 c: Coercions)
    requires SyncData(st, profile, dealList, c).error.None?
    ensures profile.Given? && NormalizeManager(profile.v, c).Success?
    ensures var st' := SyncData(st, profile, dealList, c).store;
            var m := NormalizeManager(profile.v, c).value;
            m.id in st'.managers && st'.managers[m.id] == m
    ensures var st' := SyncData(st, profile, dealList, c).store;
            var ds := DealList(dealList);
            forall i :: 0 <= i < |ds| ==>
              && NormalizeDeal(ds[i], c).Success?
              && NormalizeDeal(ds[i], c).value.id in st'.deals
              && st'.deals[NormalizeDeal(ds[i], c).value.id] == NormalizeDeal(ds[i], c).value
  {
    var b := Normalize(profile, dealList, c).value;
    CommitAddsManager(st, b);
    CommitAddsDeals(st, b);
  }

  /** A deal record that does not normalise fails the whole run, before
      anything is written; once the profile is good, the error raised is
      that of the first such record. */
  lemma BadDealFailsRun(st: Store, profile: Slot<RawRecord>, ds: seq<RawRecord>, c: Coercions, i: int)
    requires 0 <= i < |ds| && NormalizeDeal(ds[i], c).Failure?
    ensures SyncData(st, profile, Given(ds), c).error.Some?
    ensures SyncData(st, profile, Given(ds), c).store == st
    ensures profile.Given? && NormalizeManager(profile.v, c).Success? ==>
              exists k :: FirstFailure(ds, c, k, SyncData(st, profile, Given(ds), c).error.value)
  {
    if profile.Given? && NormalizeManager(profile.v, c).Success? {
      assert Normalize(profile, Given(ds), c) == Failure(NormalizeDeals(ds, c).error);
      NormalizeDealsFirstError(ds, c);
    }
  }

  /** Without a "result" in the deal response only the manager is added. */
  lemma MissingDealListAddsOnlyManager(st: Store, p: RawRecord, c: Coercions)
    requires SyncData(st, Given(p), Missing, c).error.None?
    ensures SyncData(st, Given(p), Missing, c).store ==
              Store(st.managers[NormalizeManager(p, c).value.id := NormalizeManager(p, c).value], st.deals)
  {
    var b := Normalize(Given(p), Missing, c).value;
    assert b.deals == [];
    assert RowsById(b.deals) == map[];
  }

  /** Insert, not upsert: running the same sync again over the store a
      successful run produced fails at the commit and writes nothing. */
  lemma ResyncFails(st: Store, profile: Slot<RawRecord>, dealList: Slot<seq<RawRecord>>, c: Coercions)
    requires SyncData(st, profile, dealList, c).error.None?
    ensures var st' := SyncData(st, profile, dealList, c).store;
            SyncData(st', profile, dealList, c) == SyncOutcome(st', Some(IntegrityError))
  {
    var b := Normalize(profile, dealList, c).value;
    var st' := Commit(st, b).value;
    assert b.manager.id in st'.managers;
  }

  /** A deal id that occurs twice in one deal list fails the whole run. */
  lemma RepeatedDealIdFails(st: Store, p: RawRecord, ds: seq<RawRecord>, c: Coercions, i: int, j: int)
    requires 0 <= i < j < |ds|
    requires NormalizeDeal(ds[i], c).Success? && NormalizeDeal(ds[j], c).Success?
    requires NormalizeDeal(ds[i], c).value.id == NormalizeDeal(ds[j], c).value.id
    ensures SyncData(st, Given(p), Given(ds), c).error.Some?
    ensures SyncData(st, Given(p), Given(ds), c).store == st
  {
    var n := Normalize(Given(p), Given(ds), c);
    if n.Success? {
      var rows := NormalizeDeals(ds, c).value;
      assert rows[i].id == rows[j].id;
      assert !DistinctIds(n.value.deals);
    }
  }

  /** The soft foreign key: whether the commit succeeds does not depend on
      the managers the deals are assigned to. */
  lemma CommitIgnoresAssignee(st: Store, b: Batch, i: int, manager: int)
    requires 0 <= i < |b.deals|
    ensures var b' := b.(deals := b.deals[i := b.deals[i].(assignedById := manager)]);
            Commit(st, b).Success? <==> Commit(st, b').Success?
  {
    var b' := b.(deals := b.deals[i := b.deals[i].(assignedById := manager)]);
    SameIds(b.deals, b'.deals);
  }
}
