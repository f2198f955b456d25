/** The patient's appointment list (`pages/dashboard/patient/AppointmentsTab.tsx`):
    the derived status of a row, the status filter, pagination by five, and the
    cancel and reschedule handlers, which each change one column of one row and
    then reload the list. */
module AppointmentList {
  import opened Common
  import opened Store

  /** The status the list shows, derived from the stored status and the date. */
  datatype Status = Upcoming | Completed | Cancelled

  /** Whether `new Date(appointment_date) > now`. A null column gives `new Date(null)`, the
      start of 1970, and a missing one an invalid date; neither is after a present-day
      `now`, so a row without an `appointment_date` is never after now. */
  predicate DatedAfter(d: Option<int>, now: int) {
    d.Some? && d.value > now
  }

  /** `getStatus`: a stored 'cancelled' wins; otherwise the row is upcoming exactly when its
      `appointment_date` is strictly after now. */
  function GetStatus(status: string, date: Option<int>, now: int): (s: Status)
    ensures s == Cancelled <==> status == "cancelled"
    ensures s == Upcoming <==> status != "cancelled" && date.Some? && date.value > now
    ensures s == Completed <==> status != "cancelled" && (date.None? || date.value <= now)
  {
    if status == "cancelled" then Cancelled
    else if DatedAfter(date, now) then Upcoming
    else Completed
  }

  function StatusLabel(s: Status): string {
    match s
    case Upcoming => "Upcoming"
    case Completed => "Completed"
    case Cancelled => "Cancelled"
  }

  /** `toLowerCase` on one ASCII character; other characters are kept. */
  function LowerChar(c: char): (d: char)
    ensures IsUpper(c) ==> IsLower(d) && d as int == c as int + 32
    ensures !IsUpper(c) ==> d == c
  {
    if IsUpper(c) then (c as int + 32) as char else c
  }

  /** `toLowerCase`, character by character. */
  function Lower(s: string): (r: string)
    ensures |r| == |s|
    ensures forall i :: 0 <= i < |r| ==> !IsUpper(r[i])
    ensures (forall i :: 0 <= i < |s| ==> !IsUpper(s[i])) ==> r == s
  {
    seq(|s|, i requires 0 <= i < |s| => LowerChar(s[i]))
  }

  /** The lower-cased labels are the three filter values other than 'all'. */
  lemma LowerLabels()
    ensures Lower(StatusLabel(Upcoming)) == "upcoming"
    ensures Lower(StatusLabel(Completed)) == "completed"
    ensures Lower(StatusLabel(Cancelled)) == "cancelled"
  {
    assert Lower("Upcoming")[0] == 'u';
    assert Lower("Completed")[0] == 'c';
    assert Lower("Cancelled")[0] == 'c';
  }

  /** A row of the list: the appointment and the name shown for its doctor. */
  datatype Listed = Listed(appt: Appointment, doctorName: string)

  /** Whether the row passes the filter: 'all' passes everything; any other value passes
      the rows whose lower-cased derived status equals it. */
  predicate Passes(x: Listed, filter: string, now: int)
    ensures filter == "all" ==> Passes(x, filter, now)
    ensures filter == "upcoming" ==> (Passes(x, filter, now) <==> GetStatus(x.appt.status, x.appt.appointmentDate, now) == Upcoming)
    ensures filter == "completed" ==> (Passes(x, filter, now) <==> GetStatus(x.appt.status, x.appt.appointmentDate, now) == Completed)
    ensures filter == "cancelled" ==> (Passes(x, filter, now) <==> GetStatus(x.appt.status, x.appt.appointmentDate, now) == Cancelled)
  {
    LowerLabels();
    filter == "all" || Lower(StatusLabel(GetStatus(x.appt.status, x.appt.appointmentDate, now))) == filter
  }

  /** `filtered`. */
  function Filtered(list: seq<Listed>, filter: string, now: int): (r: seq<Listed>)
    ensures |r| <= |list|
    ensures forall i :: 0 <= i < |r| ==> r[i] in list && Passes(r[i], filter, now)
    ensures forall i :: 0 <= i < |list| && Passes(list[i], filter, now) ==> list[i] in r
  {
    Filter(list, (x: Listed) => Passes(x, filter, now))
  }

  /** Filter 'all' keeps the list as it is. */
  lemma AllKeepsEverything(list: seq<Listed>, now: int)
    ensures Filtered(list, "all", now) == list
  {
    FilterKeepsAll(list, (x: Listed) => Passes(x, "all", now));
  }

  /** Filtering on a derived status keeps exactly the rows with that status. */
  lemma FilterByStatus(list: seq<Listed>, s: Status, now: int)
    ensures forall x :: x in Filtered(list, Lower(StatusLabel(s)), now) <==>
      x in list && GetStatus(x.appt.status, x.appt.appointmentDate, now) == s
  {
    LowerLabels();
    var r := Filtered(list, Lower(StatusLabel(s)), now);
    forall x | x in list && GetStatus(x.appt.status, x.appt.appointmentDate, now) == s ensures x in r {
      var i :| 0 <= i < |list| && list[i] == x;
    }
    forall x | x in r ensures x in list && GetStatus(x.appt.status, x.appt.appointmentDate, now) == s {
      var i :| 0 <= i < |r| && r[i] == x;
    }
  }

  /** A filter value that is neither 'all' nor a lower-cased status keeps nothing. */
  lemma UnknownFilterKeepsNothing(list: seq<Listed>, filter: string, now: int)
    requires filter !in {"all", "upcoming", "completed", "cancelled"}
    ensures Filtered(list, filter, now) == []
  {
    LowerLabels();
    FilterKeepsNone(list, (x: Listed) => Passes(x, filter, now));
  }

  const PageSize := 5

  /** `Math.ceil(n / PAGE_SIZE)`. */
  function TotalPages(n: nat): (pages: nat)
    ensures pages * PageSize >= n
    ensures pages > 0 ==> (pages - 1) * PageSize < n
  {
    (n + PageSize - 1) / PageSize
  }

  /** JavaScript's `s.slice(start, end)`: a negative bound counts from the end, both bounds
      are clamped to the list, and an end before the start gives nothing. */
  function Slice<T>(s: seq<T>, start: int, end: int): (r: seq<T>)
    ensures |r| <= |s|
    ensures 0 <= start <= end <= |s| ==> r == s[start..end]
    ensures 0 <= start <= |s| <= end ==> r == s[start..]
    ensures 0 <= end <= start ==> r == []
    ensures start <= 0 && end <= 0 && |s| + end <= 0 ==> r == []
  {
    var from := Clamp(if start < 0 then |s| + start else start, |s|);
    var to := Clamp(if end < 0 then |s| + end else end, |s|);
    if from < to then s[from..to] else []
  }

  /** A slice bound brought into `0..n`. */
  function Clamp(i: int, n: nat): (r: nat)
    ensures r <= n
    ensures 0 <= i <= n ==> r == i
    ensures i < 0 ==> r == 0
    ensures i > n ==> r == n
  {
    if i < 0 then 0 else if i > n then n else i
  }

  /** `paginated`: page `p` of the list. */
  function Page<T>(list: seq<T>, p: int): (r: seq<T>)
    ensures p >= 1 ==> |r| <= PageSize
    ensures forall i :: 0 <= i < |r| ==> r[i] in list
  {
    Slice(list, (p - 1) * PageSize, p * PageSize)
  }

  /** A page from 1 on is the part of the list between positions 5(p-1) and 5p, so it never
      holds more than five rows. */
  lemma PageShape<T>(list: seq<T>, p: int)
    requires p >= 1
    ensures |Page(list, p)| <= PageSize
    ensures (p - 1) * PageSize < |list| ==>
      Page(list, p) == list[(p - 1) * PageSize .. if p * PageSize < |list| then p * PageSize else |list|]
    ensures (p - 1) * PageSize >= |list| ==> Page(list, p) == []
  {
  }

  /** Pages 1 to k, one after the other. */
  function PagesUpTo<T>(list: seq<T>, k: nat): seq<T> {
    if k == 0 then [] else PagesUpTo(list, k - 1) + Page(list, k)
  }

  /** Pages 1 to k cover the first 5k rows of the list, in order. */
  lemma {:induction false} PagesUpToPrefix<T>(list: seq<T>, k: nat)
    ensures PagesUpTo(list, k) == list[..if k * PageSize < |list| then k * PageSize else |list|]
  {
    if k > 0 {
      PagesUpToPrefix(list, k - 1);
      PageShape(list, k);
    }
  }

  /** Pages 1 to `totalPages` put back together give the whole filtered list. */
  lemma PagesCoverList<T>(list: seq<T>)
    ensures PagesUpTo(list, TotalPages(|list|)) == list
  {
    PagesUpToPrefix(list, TotalPages(|list|));
  }

  /** Reschedule and Cancel are offered for a row whose derived status is upcoming and whose
      stored status does not contain 'cancelled'. */
  predicate ActionsOffered(x: Listed, now: int) {
    GetStatus(x.appt.status, x.appt.appointmentDate, now) == Upcoming && !Contains(x.appt.status, "cancelled")
  }

  /** The actions are offered exactly for rows whose `appointment_date` is after now and whose
      stored status does not contain 'cancelled'; so a cancelled row never offers them, and
      neither does a row booked on a booking screen, which has no `appointment_date`. */
  lemma ActionsOfferedMeaning(x: Listed, now: int)
    ensures ActionsOffered(x, now) <==> DatedAfter(x.appt.appointmentDate, now) && !Contains(x.appt.status, "cancelled")
  {
    if x.appt.status == "cancelled" {
      ContainsInConcat("", "cancelled", "");
      assert "" + "cancelled" + "" == x.appt.status;
    }
  }

  /** Whether a row dated `x` may come before one dated `y` in ascending order, where a
      null date sorts after every date (the store's default for ascending order). */
  predicate NoLater(x: Option<int>, y: Option<int>) {
    y.None? || (x.Some? && x.value <= y.value)
  }

  /** Rows in ascending `appointment_date` order, nulls last; rows with equal dates keep
      their table order. */
  predicate SortedByDate(s: seq<Appointment>) {
    forall i, j :: 0 <= i < j < |s| ==> NoLater(s[i].appointmentDate, s[j].appointmentDate)
  }

  /** Inserting one row into a date-ordered list, after the rows with an equal or earlier date. */
  function InsertByDate(a: Appointment, s: seq<Appointment>): (r: seq<Appointment>)
    requires SortedByDate(s)
    ensures |r| == |s| + 1
    ensures forall i :: 0 <= i < |r| ==> r[i] == a || r[i] in s
    ensures SortedByDate(r)
  {
    if s == [] then [a]
    else if NoLater(a.appointmentDate, s[0].appointmentDate) then [a] + s
    else
      var rest := InsertByDate(a, s[1..]);
      assert s == [s[0]] + s[1..];
      HeadBelowRest(a, s, rest);
      [s[0]] + rest
  }

  /** Inserting adds exactly the one row. */
  lemma {:induction false} InsertByDateCounts(a: Appointment, s: seq<Appointment>)
    requires SortedByDate(s)
    ensures multiset(InsertByDate(a, s)) == multiset(s) + multiset{a}
  {
    if s != [] && !NoLater(a.appointmentDate, s[0].appointmentDate) {
      assert s == [s[0]] + s[1..];
      InsertByDateCounts(a, s[1..]);
    }
  }

  lemma HeadBelowRest(a: Appointment, s: seq<Appointment>, rest: seq<Appointment>)
    requires SortedByDate(s) && |s| > 0 && !NoLater(a.appointmentDate, s[0].appointmentDate)
    requires forall i :: 0 <= i < |rest| ==> rest[i] == a || rest[i] in s[1..]
    ensures forall i :: 0 <= i < |rest| ==> NoLater(s[0].appointmentDate, rest[i].appointmentDate)
  {
    forall i | 0 <= i < |rest| ensures NoLater(s[0].appointmentDate, rest[i].appointmentDate) {
      if rest[i] != a {
        var k :| 0 <= k < |s[1..]| && s[1..][k] == rest[i];
        assert s[k + 1] == rest[i];
      }
    }
  }

  /** `.order('appointment_date', { ascending: true })`. */
  function OrderByDate(s: seq<Appointment>): (r: seq<Appointment>)
    ensures SortedByDate(r) && multiset(r) == multiset(s)
  {
    if s == [] then []
    else
      assert s == [s[0]] + s[1..];
      InsertByDateCounts(s[0], OrderByDate(s[1..]));
      InsertByDate(s[0], OrderByDate(s[1..]))
  }

  /** The list `fetchAppointments` loads: the patient's rows ordered by `appointment_date`,
      each with its doctor's name. */
  function Listing(appts: seq<Appointment>, profiles: seq<Profile>, patientId: string): (r: seq<Listed>)
    ensures |r| == |OrderByDate(Filter(appts, (a: Appointment) => a.patientId == patientId))|
  {
    var mine := OrderByDate(Filter(appts, (a: Appointment) => a.patientId == patientId));
    seq(|mine|, i requires 0 <= i < |mine| => Listed(mine[i], DoctorName(profiles, mine[i].doctorId)))
  }

  /** The loaded list holds exactly the patient's rows, as often as the table does, in
      ascending date order. */
  lemma ListingMeaning(appts: seq<Appointment>, profiles: seq<Profile>, patientId: string)
    ensures var r := Listing(appts, profiles, patientId);
      var rows := seq(|r|, i requires 0 <= i < |r| => r[i].appt);
      && multiset(rows) == multiset(Filter(appts, (a: Appointment) => a.patientId == patientId))
      && SortedByDate(rows)
      && forall i :: 0 <= i < |r| ==> r[i].appt.patientId == patientId
  {
    var mine := OrderByDate(Filter(appts, (a: Appointment) => a.patientId == patientId));
    var r := Listing(appts, profiles, patientId);
    var rows := seq(|r|, i requires 0 <= i < |r| => r[i].appt);
    assert rows == mine;
    forall i | 0 <= i < |r| ensures r[i].appt.patientId == patientId {
      assert mine[i] in multiset(mine);
    }
  }

  /** Each loaded row shows the full name of the first profile whose id is the row's doctor,
      or 'Unknown Doctor' when that name is empty or no profile joins. */
  lemma ListedDoctorNames(appts: seq<Appointment>, profiles: seq<Profile>, patientId: string)
    ensures var r := Listing(appts, profiles, patientId);
      && (forall i, k :: 0 <= i < |r| && 0 <= k < |profiles| && Some(profiles[k].id) == r[i].appt.doctorId
                         && (forall j :: 0 <= j < k ==> profiles[j].id != profiles[k].id) ==>
                           r[i].doctorName == if profiles[k].fullName != "" then profiles[k].fullName else "Unknown Doctor")
      && (forall i :: 0 <= i < |r| && (forall p :: p in profiles ==> Some(p.id) != r[i].appt.doctorId) ==>
                        r[i].doctorName == "Unknown Doctor")
  {
  }

  const LoadFailedMessage := "Failed to load appointments"

  /** The list's state and its handlers. */
  class AppointmentsTab {
    const db: Database
    /** The logged-in patient, if any. */
    const session: Option<string>
    var appointments: seq<Listed>
    var loading: bool
    var error: Option<string>
    var currentPage: int
    var filter: string

    constructor (db: Database, session: Option<string>)
      ensures this.db == db && this.session == session
      ensures appointments == [] && loading && error == None && currentPage == 1 && filter == "all"
    {
      this.db, this.session := db, session;
      appointments, loading, error, currentPage, filter := [], true, None, 1, "all";
    }

    /** `fetchAppointments`: without a session nothing is read; a failed read sets the error
        and keeps the list; otherwise the list is replaced. `loading` ends false. */
    method FetchAppointments(fails: bool)
      modifies this
      ensures !loading && currentPage == old(currentPage) && filter == old(filter)
      ensures session.None? ==> appointments == old(appointments) && error == old(error)
      ensures session.Some? && fails ==> appointments == old(appointments) && error == Some(LoadFailedMessage)
      ensures session.Some? && !fails ==>
        appointments == Listing(db.appointments, db.profiles, session.value) && error == old(error)
    {
      if session.Some? {
        if fails {
          error := Some(LoadFailedMessage);
        } else {
          appointments := Listing(db.appointments, db.profiles, session.value);
        }
      }
      loading := false;
    }

    /** `handleCancel`: set the row's status to 'cancelled'; reload only when that worked. */
    method HandleCancel(id: nat, fails: bool, reloadFails: bool)
      requires db.Valid()
      modifies this, db
      ensures db.Valid() && !loading && currentPage == old(currentPage) && filter == old(filter)
      ensures db.appointments == if fails then old(db.appointments) else WithStatus(old(db.appointments), id, "cancelled")
      ensures db.records == old(db.records) && db.profiles == old(db.profiles)
      ensures fails || session.None? ==> appointments == old(appointments) && error == old(error)
      ensures !fails && session.Some? && reloadFails ==>
        appointments == old(appointments) && error == Some(LoadFailedMessage)
      ensures !fails && session.Some? && !reloadFails ==>
        appointments == Listing(db.appointments, db.profiles, session.value) && error == old(error)
    {
      loading := true;
      var ok := db.SetAppointmentStatus(id, "cancelled", fails);
      if ok {
        FetchAppointments(reloadFails);
      }
      loading := false;
    }

    /** `handleReschedule`: set the row's `appointment_date`; no check of the doctor's calendar
        is made, and the `date` column that calendar reads is left as it was. Reload only when
        the update worked. */
    method HandleReschedule(id: nat, date: int, fails: bool, reloadFails: bool)
      requires db.Valid()
      modifies this, db
      ensures db.Valid() && !loading && currentPage == old(currentPage) && filter == old(filter)
      ensures db.appointments == if fails then old(db.appointments) else WithAppointmentDate(old(db.appointments), id, date)
      ensures db.records == old(db.records) && db.profiles == old(db.profiles)
      ensures fails || session.None? ==> appointments == old(appointments) && error == old(error)
      ensures !fails && session.Some? && reloadFails ==>
        appointments == old(appointments) && error == Some(LoadFailedMessage)
      ensures !fails && session.Some? && !reloadFails ==>
        appointments == Listing(db.appointments, db.profiles, session.value) && error == old(error)
    {
      loading := true;
      var ok := db.SetAppointmentDate(id, date, fails);
      if ok {
        FetchAppointments(reloadFails);
      }
      loading := false;
    }

    /** Choosing a filter value also goes back to page 1. */
    method ChangeFilter(value: string)
      modifies this
      ensures filter == value && currentPage == 1
      ensures appointments == old(appointments) && loading == old(loading) && error == old(error)
    {
      filter := value;
      currentPage := 1;
    }

    /** The rows shown: the current page of the filtered list. */
    function Shown(now: int): seq<Listed>
      reads this
    {
      Page(Filtered(appointments, filter, now), currentPage)
    }
  }

  /** After a cancel, the row with that id reads as cancelled whatever its date, and every
      other row keeps its status. */
  lemma CancelledRowReadsCancelled(appts: seq<Appointment>, id: nat, now: int)
    ensures var after := WithStatus(appts, id, "cancelled");
      forall i :: 0 <= i < |appts| ==>
        GetStatus(after[i].status, after[i].appointmentDate, now)
        == if appts[i].id == id then Cancelled else GetStatus(appts[i].status, appts[i].appointmentDate, now)
  {
  }

  /** A row that was never given an `appointment_date` (every row the booking screens insert)
      reads as Completed in the list, however far ahead its booked `date` is, and offers
      neither Reschedule nor Cancel. */
  lemma UndatedRowReadsCompleted(x: Listed, now: int)
    requires x.appt.appointmentDate.None? && x.appt.status != "cancelled"
    ensures GetStatus(x.appt.status, x.appt.appointmentDate, now) == Completed
    ensures !ActionsOffered(x, now)
  {
  }

  /** After a reschedule, the row with that id reads as upcoming exactly when it is not
      cancelled and its new date is after now; its status, doctor and `date` (the instant the
      booking screens and the doctor's list use) are unchanged. */
  lemma RescheduledRowStatus(appts: seq<Appointment>, id: nat, date: int, now: int)
    ensures var after := WithAppointmentDate(appts, id, date);
      forall i :: 0 <= i < |appts| && appts[i].id == id ==>
        && (GetStatus(after[i].status, after[i].appointmentDate, now) == Upcoming <==> appts[i].status != "cancelled" && date > now)
        && after[i].status == appts[i].status && after[i].doctorId == appts[i].doctorId
        && after[i].date == appts[i].date
  {
  }
}
