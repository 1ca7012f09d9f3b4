/** The deal as the dashboard sees it after `pd.read_sql` and the date
    conversions: timestamps are whole seconds (time zone stripped), a value
    that failed to parse is absent, and calendar days are counted from the
    epoch. */
module Deals {
  import opened Wrappers
  import opened Seqs
  import Schema

  type Timestamp = int

  const SecondsPerDay: int := 86400

  /** The stage code of a won deal. */
  const WonStage: string := "WON"

  /** The marker of the chat channel in `source_id`. */
  const ChatMarker: string := "I2CRM"

  /** The calendar day of a timestamp (`.dt.date`): Dafny's `/` with a
      positive divisor rounds down, as the calendar does before the epoch. */
  function DayOf(t: Timestamp): int {
    t / SecondsPerDay
  }

  /** The first second of a day (`pd.to_datetime(date)`). */
  function Midnight(day: int): Timestamp {
    day * SecondsPerDay
  }

  datatype Deal = Deal(
    id: int,
    dateCreate: Option<Timestamp>,
    closeDate: Option<Timestamp>,
    stageId: Option<string>,
    sourceId: Option<string>,
    opportunity: Option<real>,
    assignedById: Option<int>)

  /** `stage_id == "WON"`; a null stage is not won. */
  predicate IsWon(d: Deal) {
    d.stageId == Some(WonStage)
  }

  /** `source_id.str.contains("I2CRM", na=False)`: the marker has no regular
      expression metacharacters, so the match is a literal substring test. */
  predicate IsChat(d: Deal) {
    d.sourceId.Some? && Contains(d.sourceId.value, ChatMarker)
  }

  /** `closedate.notna()`. */
  predicate IsMeeting(d: Deal) {
    d.closeDate.Some?
  }

  predicate HasCreateDate(d: Deal) {
    d.dateCreate.Some?
  }

  /** `opportunity.notna()`. */
  predicate HasOpportunity(d: Deal) {
    d.opportunity.Some?
  }

  /** `created on day d`, as a predicate value for counting. */
  function OnDay(day: int): Deal -> bool {
    d => CreatedOn(d, day)
  }

  /** `created on day d and won`, as a predicate value for counting. */
  function WonOnDay(day: int): Deal -> bool {
    d => CreatedOn(d, day) && IsWon(d)
  }

  /** The deal was created on calendar day `day`. */
  predicate CreatedOn(d: Deal, day: int) {
    d.dateCreate.Some? && DayOf(d.dateCreate.value) == day
  }

  /** `assigned_by_id == manager` after the nullable-integer conversion; a
      null assignee matches no manager. */
  predicate AssignedTo(d: Deal, manager: int) {
    d.assignedById == Some(manager)
  }

  /** `assigned_by_id == manager`, as a predicate value for counting and
      filtering. */
  function AssignedToOf(manager: int): Deal -> bool {
    d => AssignedTo(d, manager)
  }

  /** How the dashboard reads stored values: `pd.to_datetime(...,
      errors='coerce').dt.tz_localize(None)` as `time`, and the text of a
      text column as `text`. Both are abstract; a failure is `None`. */
  datatype Reader = Reader(time: Schema.Value -> Option<Timestamp>, text: Schema.Value -> Option<string>)

  /** The dashboard's view of a stored deal row. */
  function ReadDeal(row: Schema.DealRow, rd: Reader): Deal {
    Deal(row.id, rd.time(row.dateCreate), rd.time(row.closeDate), rd.text(row.stageId),
         rd.text(row.sourceId), Some(row.opportunity), Some(row.assignedById))
  }

  /** The dashboard's view of the rows `SELECT * FROM deals` returned. */
  function ReadDeals(rows: seq<Schema.DealRow>, rd: Reader): seq<Deal> {
    seq(|rows|, i requires 0 <= i < |rows| => ReadDeal(rows[i], rd))
  }

  /** A stored row whose `date_create` the reader can parse. */
  function DateParses(rd: Reader): Schema.DealRow -> bool {
    (row: Schema.DealRow) => rd.time(row.dateCreate).Some?
  }

  /** A stored row assigned to `manager`. */
  function RowAssignedTo(manager: int): Schema.DealRow -> bool {
    (row: Schema.DealRow) => row.assignedById == manager
  }

  /** What the dashboard sees of the stored table: the dated deals are the
      rows whose `date_create` parses, a manager's deals are the rows
      assigned to that manager, and every deal has an amount, since a stored
      row's `opportunity` is always a number here (a NaN from `float()`,
      which the database would store as NULL, is outside the model). */
  lemma ReadDealsCounts(rows: seq<Schema.DealRow>, rd: Reader, manager: int)
    ensures Count(ReadDeals(rows, rd), HasCreateDate) == Count(rows, DateParses(rd))
    ensures Count(ReadDeals(rows, rd), AssignedToOf(manager)) == Count(rows, RowAssignedTo(manager))
    ensures Count(ReadDeals(rows, rd), HasOpportunity) == |rows|
  {
    var ds := ReadDeals(rows, rd);
    CountPointwise(ds, rows, HasCreateDate, DateParses(rd));
    CountPointwise(ds, rows, AssignedToOf(manager), RowAssignedTo(manager));
  }
}
