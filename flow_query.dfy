/**
 * What the two flow listings share (controllers/ribbon_flow_controller.go,
 * controllers/online_flow_controller.go): the candidate tracking numbers of a
 * QC table under an optional day range and search, the page cut from them,
 * and the operator and outbound parts of a flow snapshot.
 */
module FlowQuery {
  import opened Wrappers
  import opened Records
  import opened Store
  import Users
  import Text
  import Tables

  /** A `YYYY-MM-DD` query parameter: absent, a day number (days since the epoch), or text that does not parse. */
  datatype DateParam = Absent | Day(day: int) | Malformed(text: string)

  const SecondsPerDay: int := 86400

  /** The half-open range from the start of the first day to the start of the day after the last. */
  predicate InRange(t: int, start: DateParam, end: DateParam) {
    (start.Day? ==> t >= start.day * SecondsPerDay) && (end.Day? ==> t < (end.day + 1) * SecondsPerDay)
  }

  /** The listing's `WHERE`: a non-empty tracking number, created in the range, containing the search text. */
  predicate Qualifies(r: QcRecord, start: DateParam, end: DateParam, search: string) {
    r.tracking != "" && InRange(r.createdAt, start, end) && (search != "" ==> Text.ContainsFold(r.tracking, search))
  }

  /** The tracking numbers of the qualifying rows, in table order, repeats included. */
  function Selected(rows: seq<QcRecord>, start: DateParam, end: DateParam, search: string): (s: seq<string>)
    ensures forall t :: t in s <==> exists i :: 0 <= i < |rows| && Qualifies(rows[i], start, end, search) && rows[i].tracking == t
  {
    if rows == [] then []
    else
      var init := Selected(rows[..|rows| - 1], start, end, search);
      var last := rows[|rows| - 1];
      assert forall i :: 0 <= i < |rows| - 1 ==> rows[..|rows| - 1][i] == rows[i];
      if Qualifies(last, start, end, search) then init + [last.tracking] else init
  }

  /** `SELECT DISTINCT tracking ... ORDER BY tracking`: each qualifying tracking number once, ascending. */
  function Candidates(rows: seq<QcRecord>, start: DateParam, end: DateParam, search: string): (c: seq<string>)
    ensures Tables.StrictlyAscending(c)
    ensures forall t :: t in c <==> exists i :: 0 <= i < |rows| && Qualifies(rows[i], start, end, search) && rows[i].tracking == t
  {
    Tables.SortDistinct(Selected(rows, start, end, search))
  }

  /** A page of the listing and the number of candidates it was cut from. */
  datatype Listing = Listing(trackings: seq<string>, total: nat)

  /**
   * The tracking numbers of page `page` of size `limit`: a malformed start
   * date, then a malformed end date, is refused; otherwise the page is the
   * window at offset (page - 1) * limit of the candidates.
   */
  function ListTrackings(rows: seq<QcRecord>, page: int, limit: int, start: DateParam, end: DateParam, search: string)
    : (r: Result<Listing>)
    ensures start.Malformed? ==> r == Err(BadRequest("invalid start_date format"))
    ensures !start.Malformed? && end.Malformed? ==> r == Err(BadRequest("invalid end_date format"))
    ensures r.Ok? <==> !start.Malformed? && !end.Malformed?
    ensures r.Ok? ==>
      var c := Candidates(rows, start, end, search);
      r.value.total == |c| && Tables.StrictlyAscending(r.value.trackings)
      && (var rest := |c| - Tables.WindowStart(|c|, (page - 1) * limit);
          |r.value.trackings| == if 0 <= limit < rest then limit else rest)
      && forall i :: 0 <= i < |r.value.trackings| ==>
           r.value.trackings[i] == c[Tables.WindowStart(|c|, (page - 1) * limit) + i]
           && exists k :: 0 <= k < |rows| && Qualifies(rows[k], start, end, search) && rows[k].tracking == r.value.trackings[i]
  {
    if start.Malformed? then Err(BadRequest("invalid start_date format"))
    else if end.Malformed? then Err(BadRequest("invalid end_date format"))
    else
      var c := Candidates(rows, start, end, search);
      var w := Tables.Window(c, (page - 1) * limit, limit);
      assert forall i :: 0 <= i < |w| ==> w[i] in c;
      Ok(Listing(w, |c|))
  }

  /** With no date and no search, every non-empty tracking number of the table is a candidate. */
  lemma UnfilteredListsEveryTracking(rows: seq<QcRecord>, k: nat)
    requires k < |rows| && rows[k].tracking != ""
    ensures rows[k].tracking in Candidates(rows, Absent, Absent, "")
  {
    assert Qualifies(rows[k], Absent, Absent, "");
  }

  /** A record created on the last day of the range is listed; one created at the start of the next day is not. */
  lemma EndDayIsInclusive(t: int, day: int)
    ensures InRange(day * SecondsPerDay + SecondsPerDay - 1, Absent, Day(day))
    ensures !InRange((day + 1) * SecondsPerDay, Absent, Day(day))
  {}

  /** The operator of a flow section: the id, username and full name of the user it names, if that user can be loaded. */
  datatype OperatorInfo = OperatorInfo(id: nat, username: string, fullName: string)

  function OperatorOf(users: seq<Users.User>, who: Option<nat>): (op: Option<OperatorInfo>)
    ensures op.Some? <==> who.Some? && UserById(users, who.value).Some?
    ensures op.Some? ==> op.value.id == who.value && op.value.username == users[UserById(users, who.value).value].username
  {
    if who.None? then None
    else match UserById(users, who.value)
      case None => None
      case Some(k) => Some(OperatorInfo(users[k].id, users[k].username, users[k].fullName))
  }

  /** The QC part of a flow. */
  datatype QcSection = QcSection(operator: Option<OperatorInfo>, createdAt: int)

  /** The outbound part of a flow. */
  datatype OutboundSection = OutboundSection(operator: Option<OperatorInfo>, expedition: string, expeditionColor: string, createdAt: int)

  /** The QC section for tracking number `t`: present exactly when a QC record carries it. */
  function QcSectionOf(rows: seq<QcRecord>, users: seq<Users.User>, t: string): (s: Option<QcSection>)
    ensures s.Some? <==> exists i :: 0 <= i < |rows| && rows[i].tracking == t
    ensures s.Some? ==> var k := QcByTracking(rows, t).value;
      s.value.createdAt == rows[k].createdAt && s.value.operator == OperatorOf(users, rows[k].qcBy)
  {
    match QcByTracking(rows, t)
    case None => None
    case Some(k) => Some(QcSection(OperatorOf(users, rows[k].qcBy), rows[k].createdAt))
  }

  /** The outbound section for tracking number `t`: present exactly when an outbound record carries it. */
  function OutboundSectionOf(rows: seq<Outbound>, users: seq<Users.User>, t: string): (s: Option<OutboundSection>)
    ensures s.Some? <==> exists i :: 0 <= i < |rows| && rows[i].tracking == t
    ensures s.Some? ==> var k := OutboundByTracking(rows, t).value;
      s.value.expedition == rows[k].expedition && s.value.expeditionColor == rows[k].expeditionColor
      && s.value.createdAt == rows[k].createdAt && s.value.operator == OperatorOf(users, rows[k].outboundBy)
  {
    match OutboundByTracking(rows, t)
    case None => None
    case Some(k) => Some(OutboundSection(OperatorOf(users, rows[k].outboundBy), rows[k].expedition, rows[k].expeditionColor, rows[k].createdAt))
  }
}
