/** The patient's booking dialog (`pages/dashboard/patient/BookAppointmentModal.tsx`):
    the submit handler's single admission check, the appointment insert, and the
    step that points all of the patient's records at the chosen doctor. The target
    instant stands for the local date and time already converted to an instant. */
module PatientBooking {
  import opened Common
  import opened Store

  /** What the checks before the insert decide, in the order the handler makes them. */
  datatype Verdict =
    | NotLoggedIn
    | CheckFailed
    | AlreadyBooked(first: Appointment)
    | Accepted

  /** The session check, then the patient's upcoming appointments (with any doctor).
      There is no check of the doctor's calendar. */
  function Admission(appts: seq<Appointment>, session: Option<string>, checkFails: bool): Verdict {
    if session.None? then NotLoggedIn
    else if checkFails then CheckFailed
    else
      var busy := PatientUpcoming(appts, session.value);
      if |busy| > 0 then AlreadyBooked(busy[0]) else Accepted
  }

  /** A booking is accepted exactly when someone is logged in, the check succeeds and that
      user has no upcoming appointment; a failed check is reported exactly when someone is
      logged in; a rejection names one of the user's upcoming appointments. */
  lemma AdmissionMeaning(appts: seq<Appointment>, session: Option<string>, checkFails: bool)
    ensures var v := Admission(appts, session, checkFails);
      && (v == Accepted <==>
            && session.Some? && !checkFails
            && forall a :: a in appts ==> !(a.patientId == session.value && a.status == "upcoming"))
      && (v == NotLoggedIn <==> session.None?)
      && (v == CheckFailed <==> session.Some? && checkFails)
      && (v.AlreadyBooked? ==> v.first in appts && v.first.patientId == session.value && v.first.status == "upcoming")
  {
    if session.Some? && !checkFails {
      var busy := PatientUpcoming(appts, session.value);
      if |busy| > 0 {
        assert busy[0] in busy;
      }
    }
  }

  /** Unlike the doctor's screen, the dialog never looks at the doctor's calendar: when the
      patient has no upcoming appointment the booking is accepted, even if the table holds
      other patients' upcoming appointments at that very instant with that doctor. */
  lemma NoDoctorSlotCheck(appts: seq<Appointment>, patientId: string)
    requires forall a :: a in appts ==> a.patientId != patientId
    ensures Admission(appts, Some(patientId), false) == Accepted
  {
    AdmissionMeaning(appts, Some(patientId), false);
  }

  /** The row the dialog inserts: the logged-in patient, the selected doctor (which may be
      unset), the instant (in `date`) and the reason, status 'upcoming' and not cancelled;
      `appointment_date` is not written. */
  function NewAppointment(patientId: string, doctorId: Option<string>, instant: int, reason: string): Appointment {
    Appointment(0, patientId, doctorId, instant, None, reason, "upcoming", false)
  }

  const NotLoggedInMessage := "Please log in to book an appointment"
  const CheckMessage := "Failed to verify appointment availability"
  const FetchRecordsMessage := "Failed to fetch existing records"
  const NonErrorThrownMessage := "An unexpected error occurred"

  /** The conflict message; its template literal spans three source lines, so the text
      holds a line break, a line of eight spaces and another line break. The text is
      written phrase by phrase, which keeps proofs that unfold it small. */
  function AlreadyBookedMessage(dateText: string): string {
    ConflictMessage("You already have " + "an upcoming appointment on ", dateText,
                    ". \n        \n" + "Please cancel or reschedule " + "your existing appointment "
                    + "before booking a new one.")
  }

  function RecordInsertMessage(message: string): string {
    "Failed to create new record: " + message
  }

  function UpdateFailedMessage(count: nat): string {
    "Failed to update " + NatToString(count) + " records"
  }

  /** The ids of a list of rows. */
  function IdsOf(recs: seq<MedicalRecord>): (ids: set<nat>)
    ensures forall x :: x in recs ==> x.id in ids
    ensures forall id :: id in ids ==> exists x :: x in recs && x.id == id
  {
    set x | x in recs :: x.id
  }

  /** How many of the per-record updates fail, when the updates of the ids in `failing` fail. */
  function FailedCount(mine: seq<MedicalRecord>, failing: set<nat>): nat {
    |Filter(mine, (x: MedicalRecord) => x.id in failing)|
  }

  /** What the handler leaves after a successful insert: the records table, the error shown,
      and whether `onSuccess` and `onClose` ran. */
  datatype RecordsStep = RecordsStep(records: seq<MedicalRecord>, error: Option<string>, closed: bool)

  /** The records step: a failed fetch stops with its message; a patient with no records gets
      one new record for the selected doctor and the handler stops there; otherwise every
      record of the patient whose update succeeds is pointed at the selected doctor with a
      fresh `updated_at`, the failures are counted in the message, and the dialog closes. */
  function RecordsAfterBooking(recs: seq<MedicalRecord>, patientId: string, doctorId: Option<string>, now: int,
                               fetchFails: bool, insertError: Option<string>, failing: set<nat>, nextId: nat): RecordsStep
  {
    if fetchFails then RecordsStep(recs, Some(FetchRecordsMessage), false)
    else
      var mine := RecordsOfPatient(recs, patientId);
      if mine == [] then
        if insertError.Some? then RecordsStep(recs, Some(RecordInsertMessage(insertError.value)), false)
        else RecordsStep(recs + [CompanionRecord(patientId, doctorId, now, None).(id := nextId)], None, false)
      else
        var failed := FailedCount(mine, failing);
        RecordsStep(RecordsUpdated(recs, IdsOf(mine) - failing, Retarget(doctorId, now)),
                    if failed > 0 then Some(UpdateFailedMessage(failed)) else None,
                    true)
  }

  /** The three outcomes of the records step: a failed fetch changes nothing and leaves the
      dialog open; a patient without records gets one new record for the chosen doctor
      appended (or, when that insert fails, nothing changes) and the dialog stays open; a
      patient with records keeps every row in place, with its id, patient and file, and the
      dialog closes. */
  lemma RecordsAfterBookingOutcomes(recs: seq<MedicalRecord>, patientId: string, doctorId: Option<string>, now: int,
                                    fetchFails: bool, insertError: Option<string>, failing: set<nat>, nextId: nat)
    ensures var r := RecordsAfterBooking(recs, patientId, doctorId, now, fetchFails, insertError, failing, nextId);
      && (fetchFails ==> r.records == recs && r.error == Some(FetchRecordsMessage) && !r.closed)
      && (r.closed <==> !fetchFails && RecordsOfPatient(recs, patientId) != [])
      && (r.closed ==> |r.records| == |recs|)
      && (r.closed ==> forall i :: 0 <= i < |recs| ==>
            r.records[i].id == recs[i].id && r.records[i].patientId == recs[i].patientId
            && r.records[i].fileUrl == recs[i].fileUrl)
      && (!r.closed && r.error.None? ==>
            |r.records| == |recs| + 1 && r.records[..|recs|] == recs && r.records[|recs|].patientId == patientId
            && r.records[|recs|].doctorId == doctorId && r.records[|recs|].id == nextId)
      && (!r.closed && r.error.Some? ==> r.records == recs)
  {
  }

  /** The error shown after a submission that inserted nothing. A failed insert first shows
      its message or 'Failed to book appointment'; the rethrown value is then caught, and the
      message becomes the value's own message when it is an `Error` instance and a generic
      text otherwise. */
  function ErrorWithoutBooking(v: Verdict, formatDate: int -> string, insertError: Option<string>,
                               thrownIsError: bool): Option<string>
  {
    match v
    case NotLoggedIn => Some(NotLoggedInMessage)
    case CheckFailed => Some(CheckMessage)
    case AlreadyBooked(first) => Some(AlreadyBookedMessage(formatDate(first.date)))
    case Accepted =>
      if insertError.None? then None
      else if thrownIsError then Some(insertError.value)
      else Some(NonErrorThrownMessage)
  }

  /** An error is shown exactly when the booking was turned away or its insert failed; a
      conflict shows the message naming the date of the patient's upcoming appointment; a
      thrown value that is not an `Error` shows the generic text. */
  lemma ErrorWithoutBookingMeaning(v: Verdict, formatDate: int -> string, insertError: Option<string>,
                                   thrownIsError: bool)
    ensures var r := ErrorWithoutBooking(v, formatDate, insertError, thrownIsError);
      && (r.None? <==> v == Accepted && insertError.None?)
      && (v.AlreadyBooked? ==> r == Some(AlreadyBookedMessage(formatDate(v.first.date))))
      && (v.AlreadyBooked? ==> Contains(r.value, formatDate(v.first.date)))
      && (v == Accepted && insertError.Some? && !thrownIsError ==> r == Some(NonErrorThrownMessage))
  {
    if v.AlreadyBooked? {
      var m := AlreadyBookedMessage(formatDate(v.first.date));
      assert ErrorWithoutBooking(v, formatDate, insertError, thrownIsError) == Some(m);
    }
  }

  /** The dialog's state and its submit handler. */
  class BookingModal {
    const db: Database
    var selectedDoctor: Option<string>
    var error: Option<string>
    var submitting: bool
    /** `onSuccess()` and then `onClose()` have run. */
    var closed: bool

    constructor (db: Database, selectedDoctor: Option<string>)
      ensures this.db == db && this.selectedDoctor == selectedDoctor
      ensures error == None && !submitting && !closed
    {
      this.db, this.selectedDoctor := db, selectedDoctor;
      error, submitting, closed := None, false, false;
    }

    /** `handleSubmit`. `session` is the logged-in user's id, if any; the outcome of each
        table call is a parameter: `insertError` is the appointment insert's message when it
        fails and `thrownIsError` says whether that failure is an `Error` instance;
        `recordInsertError` is the record insert's message when it fails; `failing` holds the
        ids of the records whose update fails. */
    method HandleSubmit(session: Option<string>, instant: int, reason: string, formatDate: int -> string,
                        checkFails: bool, insertError: Option<string>, thrownIsError: bool,
                        recordFetchFails: bool, recordInsertError: Option<string>, failing: set<nat>, now: int)
      requires db.Valid() && !closed
      modifies this, db
      ensures db.Valid() && !submitting
      ensures selectedDoctor == old(selectedDoctor) && db.profiles == old(db.profiles)
      ensures var v := Admission(old(db.appointments), session, checkFails);
        !(v == Accepted && insertError.None?) ==>
          && db.appointments == old(db.appointments) && db.records == old(db.records)
          && error == ErrorWithoutBooking(v, formatDate, insertError, thrownIsError)
          && !closed
      ensures var v := Admission(old(db.appointments), session, checkFails);
        v == Accepted && insertError.None? ==>
          var step := RecordsAfterBooking(old(db.records), session.value, selectedDoctor, now, recordFetchFails,
                                          recordInsertError, failing, old(db.nextId) + 1);
          && db.appointments == old(db.appointments)
                                + [NewAppointment(session.value, selectedDoctor, instant, reason).(id := old(db.nextId))]
          && db.records == step.records && error == step.error && closed == step.closed
    {
      var v := CheckAdmission(session, checkFails);
      Respond(v, session, instant, reason, formatDate, insertError, thrownIsError,
              recordFetchFails, recordInsertError, failing, now);
    }

    /** What `handleSubmit` does around the checks, once they have reached verdict `v`:
        `submitting` is set and the error cleared first (the checks only read, so running them
        earlier changes nothing), the verdict is reported or the booking made, and the
        `finally` clause clears `submitting`. */
    method Respond(v: Verdict, session: Option<string>, instant: int, reason: string, formatDate: int -> string,
                   insertError: Option<string>, thrownIsError: bool,
                   recordFetchFails: bool, recordInsertError: Option<string>, failing: set<nat>, now: int)
      requires db.Valid() && !closed
      requires v == Accepted ==> session.Some?
      modifies this, db
      ensures db.Valid() && !submitting
      ensures selectedDoctor == old(selectedDoctor) && db.profiles == old(db.profiles)
      ensures !(v == Accepted && insertError.None?) ==>
          && db.appointments == old(db.appointments) && db.records == old(db.records)
          && error == ErrorWithoutBooking(v, formatDate, insertError, thrownIsError)
          && !closed
      ensures v == Accepted && insertError.None? ==>
          var step := RecordsAfterBooking(old(db.records), session.value, selectedDoctor, now, recordFetchFails,
                                          recordInsertError, failing, old(db.nextId) + 1);
          && db.appointments == old(db.appointments)
                                + [NewAppointment(session.value, selectedDoctor, instant, reason).(id := old(db.nextId))]
          && db.records == step.records && error == step.error && closed == step.closed
    {
      if v == Accepted {
        Submit(session.value, instant, reason, insertError, thrownIsError,
               recordFetchFails, recordInsertError, failing, now);
      } else {
        TurnAway(v, formatDate, insertError, thrownIsError);
        assert db.appointments == old(db.appointments) && db.records == old(db.records) && db.nextId == old(db.nextId);
      }
    }

    /** An accepted submission: start, insert and handle the records, finish. */
    method Submit(patientId: string, instant: int, reason: string, insertError: Option<string>, thrownIsError: bool,
                  recordFetchFails: bool, recordInsertError: Option<string>, failing: set<nat>, now: int)
      requires db.Valid() && !closed
      modifies this, db
      ensures db.Valid() && !submitting
      ensures selectedDoctor == old(selectedDoctor) && db.profiles == old(db.profiles)
      ensures insertError.Some? ==>
          && db.appointments == old(db.appointments) && db.records == old(db.records)
          && error == Some(if thrownIsError then insertError.value else NonErrorThrownMessage)
          && !closed
      ensures insertError.None? ==>
          var step := RecordsAfterBooking(old(db.records), patientId, selectedDoctor, now, recordFetchFails,
                                          recordInsertError, failing, old(db.nextId) + 1);
          && db.appointments == old(db.appointments)
                                + [NewAppointment(patientId, selectedDoctor, instant, reason).(id := old(db.nextId))]
          && db.records == step.records && error == step.error && closed == step.closed
    {
      Begin();
      Book(patientId, instant, reason, insertError, thrownIsError,
           recordFetchFails, recordInsertError, failing, now);
      Finish();
    }

    /** A submission turned away by the checks: start, report, finish; nothing is written. */
    method TurnAway(v: Verdict, formatDate: int -> string, insertError: Option<string>, thrownIsError: bool)
      requires v != Accepted && !closed
      modifies this
      ensures !submitting && !closed && selectedDoctor == old(selectedDoctor)
      ensures error == ErrorWithoutBooking(v, formatDate, insertError, thrownIsError)
    {
      Begin();
      Reject(v, formatDate);
      Finish();
      assert ErrorWithoutBooking(v, formatDate, None, false) == ErrorWithoutBooking(v, formatDate, insertError, thrownIsError);
    }

    /** The submission starts: `submitting` is set and the error cleared. */
    method Begin()
      modifies this
      ensures submitting && error == None
      ensures selectedDoctor == old(selectedDoctor) && closed == old(closed)
    {
      submitting := true;
      error := None;
    }

    /** The `finally` clause: `submitting` is cleared and nothing else changes. */
    method Finish()
      modifies this
      ensures !submitting
      ensures selectedDoctor == old(selectedDoctor) && error == old(error) && closed == old(closed)
    {
      submitting := false;
    }

    /** The message for a submission the checks turn away. */
    method Reject(v: Verdict, formatDate: int -> string)
      requires v != Accepted
      modifies this
      ensures error == ErrorWithoutBooking(v, formatDate, None, false)
      ensures selectedDoctor == old(selectedDoctor) && submitting == old(submitting) && closed == old(closed)
    {
      match v {
        case NotLoggedIn => error := Some(NotLoggedInMessage);
        case CheckFailed => error := Some(CheckMessage);
        case AlreadyBooked(first) => error := Some(AlreadyBookedMessage(formatDate(first.date)));
      }
    }

    /** The checks before the insert; the table is only read. */
    method CheckAdmission(session: Option<string>, checkFails: bool) returns (v: Verdict)
      ensures v == Admission(db.appointments, session, checkFails)
    {
      if session.None? {
        return NotLoggedIn;
      }
      if checkFails {
        return CheckFailed;
      }
      var busy := PatientUpcoming(db.appointments, session.value);
      if |busy| > 0 {
        return AlreadyBooked(busy[0]);
      }
      return Accepted;
    }

    /** The insert, then the records step when it succeeds. A failed insert shows its own
        message or 'Failed to book appointment' and is rethrown; the catch then replaces the
        message. The handler's second session check cannot fail here, since the session was
        checked before. */
    method Book(patientId: string, instant: int, reason: string, insertError: Option<string>, thrownIsError: bool,
                recordFetchFails: bool, recordInsertError: Option<string>, failing: set<nat>, now: int)
      requires db.Valid() && error == None && !closed
      modifies this, db
      ensures db.Valid()
      ensures selectedDoctor == old(selectedDoctor) && submitting == old(submitting) && db.profiles == old(db.profiles)
      ensures insertError.Some? ==>
        && db.appointments == old(db.appointments) && db.records == old(db.records) && !closed
        && error == Some(if thrownIsError then insertError.value else NonErrorThrownMessage)
      ensures insertError.None? ==>
        var step := RecordsAfterBooking(old(db.records), patientId, selectedDoctor, now, recordFetchFails,
                                        recordInsertError, failing, old(db.nextId) + 1);
        && db.appointments == old(db.appointments) + [NewAppointment(patientId, selectedDoctor, instant, reason).(id := old(db.nextId))]
        && db.records == step.records && error == step.error && closed == step.closed
    {
      var inserted := db.InsertAppointment(NewAppointment(patientId, selectedDoctor, instant, reason), insertError.Some?);
      if !inserted {
        var message := insertError.value;
        error := Some(if message != "" then message else "Failed to book appointment");
        // the error is rethrown; the handler's catch overwrites the message
        error := Some(if thrownIsError then message else NonErrorThrownMessage);
        return;
      }
      UpdateRecords(patientId, now, recordFetchFails, recordInsertError, failing);
    }

    /** The records step after the insert. */
    method UpdateRecords(patientId: string, now: int, fetchFails: bool, insertError: Option<string>, failing: set<nat>)
      requires db.Valid() && error == None && !closed
      modifies this, db
      ensures db.Valid()
      ensures selectedDoctor == old(selectedDoctor) && submitting == old(submitting)
      ensures db.appointments == old(db.appointments) && db.profiles == old(db.profiles)
      ensures var step := RecordsAfterBooking(old(db.records), patientId, selectedDoctor, now, fetchFails,
                                              insertError, failing, old(db.nextId));
        db.records == step.records && error == step.error && closed == step.closed
    {
      if fetchFails {
        error := Some(FetchRecordsMessage);
        return;
      }
      var mine := RecordsOfPatient(db.records, patientId);
      if mine == [] {
        var inserted := db.InsertRecord(CompanionRecord(patientId, selectedDoctor, now, None), insertError.Some?);
        if !inserted {
          error := Some(RecordInsertMessage(insertError.value));
        }
        return;
      }
      var failed := RetargetAll(mine, now, failing);
      Close(failed);
    }

    /** After the updates: the failures, if any, are reported, and `onSuccess()` and
        `onClose()` run. */
    method Close(failed: nat)
      modifies this
      ensures error == if failed > 0 then Some(UpdateFailedMessage(failed)) else old(error)
      ensures closed
      ensures selectedDoctor == old(selectedDoctor) && submitting == old(submitting)
    {
      if failed > 0 {
        error := Some(UpdateFailedMessage(failed));
      }
      closed := true;
    }

    /** One update per record of the patient, each setting `doctor_id` to the selected
        doctor and `updated_at` to now; returns how many failed. The source issues them all
        at once and waits for all of them; here they run one after the other. */
    method RetargetAll(mine: seq<MedicalRecord>, now: int, failing: set<nat>) returns (failed: nat)
      requires db.Valid()
      modifies db
      ensures db.Valid()
      ensures db.records == RecordsUpdated(old(db.records), IdsOf(mine) - failing, Retarget(selectedDoctor, now))
      ensures failed == FailedCount(mine, failing)
      ensures db.appointments == old(db.appointments) && db.profiles == old(db.profiles)
    {
      failed := 0;
      var i := 0;
      while i < |mine|
        invariant 0 <= i <= |mine|
        invariant db.Valid()
        invariant db.records == RetargetedPrefix(old(db.records), mine, i, failing, selectedDoctor, now)
        invariant failed == FailedCount(mine[..i], failing)
        invariant db.appointments == old(db.appointments) && db.profiles == old(db.profiles)
      {
        var ok := db.RetargetRecord(mine[i].id, selectedDoctor, now, mine[i].id in failing);
        FailedCountStep(mine, i, failing);
        if !ok {
          failed := failed + 1;
        }
        i := i + 1;
      }
      assert mine[..i] == mine;
      RetargetedPrefixIsUpdate(old(db.records), mine, i, failing, selectedDoctor, now);
    }
  }

  /** The records table after the first `n` updates of the loop, one update at a time. */
  function RetargetedPrefix(recs: seq<MedicalRecord>, mine: seq<MedicalRecord>, n: nat, failing: set<nat>,
                            doctorId: Option<string>, now: int): seq<MedicalRecord>
    requires n <= |mine|
  {
    if n == 0 then recs
    else
      var before := RetargetedPrefix(recs, mine, n - 1, failing, doctorId, now);
      if mine[n - 1].id in failing then before
      else RecordsUpdated(before, {mine[n - 1].id}, Retarget(doctorId, now))
  }

  /** The updates one at a time amount to one update of all the ids whose update succeeded. */
  lemma {:induction false} RetargetedPrefixIsUpdate(recs: seq<MedicalRecord>, mine: seq<MedicalRecord>, n: nat,
                                                    failing: set<nat>, doctorId: Option<string>, now: int)
    requires n <= |mine|
    ensures RetargetedPrefix(recs, mine, n, failing, doctorId, now)
            == RecordsUpdated(recs, IdsOf(mine[..n]) - failing, Retarget(doctorId, now))
  {
    if n == 0 {
      assert IdsOf(mine[..0]) == {};
      assert RecordsUpdated(recs, {}, Retarget(doctorId, now)) == recs;
    } else {
      var i := n - 1;
      var f := Retarget(doctorId, now);
      var ids := IdsOf(mine[..i]) - failing;
      var prev := RetargetedPrefix(recs, mine, i, failing, doctorId, now);
      RetargetedPrefixIsUpdate(recs, mine, i, failing, doctorId, now);
      assert prev == RecordsUpdated(recs, ids, f);
      IdsOfStep(mine, i, failing);
      if mine[i].id in failing {
        assert RetargetedPrefix(recs, mine, n, failing, doctorId, now) == prev;
        assert IdsOf(mine[..n]) - failing == ids;
      } else {
        assert RetargetedPrefix(recs, mine, n, failing, doctorId, now) == RecordsUpdated(prev, {mine[i].id}, f);
        RetargetAgain(recs, ids, mine[i].id, doctorId, now);
        assert IdsOf(mine[..n]) - failing == ids + {mine[i].id};
      }
    }
  }

  /** The ids of one more record: one more id, unless its update fails. */
  lemma IdsOfStep(mine: seq<MedicalRecord>, i: nat, failing: set<nat>)
    requires i < |mine|
    ensures mine[i].id !in failing ==> IdsOf(mine[..i + 1]) - failing == (IdsOf(mine[..i]) - failing) + {mine[i].id}
    ensures mine[i].id in failing ==> IdsOf(mine[..i + 1]) - failing == IdsOf(mine[..i]) - failing
  {
    assert mine[..i + 1] == mine[..i] + [mine[i]];
    assert IdsOf(mine[..i + 1]) == IdsOf(mine[..i]) + {mine[i].id};
  }

  /** Counting failures one record further. */
  lemma FailedCountStep(mine: seq<MedicalRecord>, i: nat, failing: set<nat>)
    requires i < |mine|
    ensures FailedCount(mine[..i + 1], failing) == FailedCount(mine[..i], failing) + (if mine[i].id in failing then 1 else 0)
  {
    assert mine[..i + 1] == mine[..i] + [mine[i]];
    FilterAppend(mine[..i], [mine[i]], (x: MedicalRecord) => x.id in failing);
  }

  /** Retargeting the rows of one more id: retargeting twice is retargeting once, and the
      change keeps each row's id. */
  lemma RetargetAgain(recs: seq<MedicalRecord>, ids: set<nat>, id: nat, doctorId: Option<string>, now: int)
    ensures RecordsUpdated(RecordsUpdated(recs, ids, Retarget(doctorId, now)), {id}, Retarget(doctorId, now))
            == RecordsUpdated(recs, ids + {id}, Retarget(doctorId, now))
  {
    var f := Retarget(doctorId, now);
    var once := RecordsUpdated(recs, ids, f);
    var lhs := RecordsUpdated(once, {id}, f);
    var rhs := RecordsUpdated(recs, ids + {id}, f);
    forall i | 0 <= i < |recs| ensures lhs[i] == rhs[i] {
      assert once[i].id == recs[i].id;
    }
  }

  /** The update path, row by row: each record of the patient whose update succeeded now
      names the selected doctor and carries `updated_at` = now, and every other row —
      the failed updates and all other patients' records — is as it was. */
  lemma {:induction false} RetargetedRecords(recs: seq<MedicalRecord>, patientId: string, doctorId: Option<string>,
                                             now: int, failing: set<nat>, nextId: nat)
    requires RecordIdsBelow(recs, nextId)
    requires RecordsOfPatient(recs, patientId) != []
    ensures var after := RecordsAfterBooking(recs, patientId, doctorId, now, false, None, failing, nextId).records;
      && |after| == |recs|
      && (forall i :: 0 <= i < |recs| && recs[i].patientId == patientId && recs[i].id !in failing ==>
            after[i] == recs[i].(doctorId := doctorId, updatedAt := Some(now)))
      && (forall i :: 0 <= i < |recs| && (recs[i].patientId != patientId || recs[i].id in failing) ==>
            after[i] == recs[i])
  {
    var mine := RecordsOfPatient(recs, patientId);
    var after := RecordsAfterBooking(recs, patientId, doctorId, now, false, None, failing, nextId).records;
    forall i | 0 <= i < |recs| && recs[i].patientId != patientId ensures recs[i].id !in IdsOf(mine) {
      assert recs[i] in recs;
    }
    forall i | 0 <= i < |recs| && recs[i].patientId == patientId ensures recs[i].id in IdsOf(mine) {
      assert recs[i] in recs;
      assert recs[i] in mine;
    }
  }

  /** The first booking of a patient without records creates exactly one record of theirs,
      for the selected doctor, and the dialog stays open. */
  lemma {:induction false} FirstBookingCreatesOneRecord(recs: seq<MedicalRecord>, patientId: string,
                                                        doctorId: Option<string>, now: int, failing: set<nat>, nextId: nat)
    requires RecordsOfPatient(recs, patientId) == []
    ensures var step := RecordsAfterBooking(recs, patientId, doctorId, now, false, None, failing, nextId);
      && |RecordsOfPatient(step.records, patientId)| == 1
      && RecordsOfPatient(step.records, patientId)[0].doctorId == doctorId
      && !step.closed && step.error == None
  {
    var row := CompanionRecord(patientId, doctorId, now, None).(id := nextId);
    FilterAppend(recs, [row], (x: MedicalRecord) => x.patientId == patientId);
  }

  /** The failure count in the message is the number of the patient's records whose update
      failed; there is no message exactly when none failed. */
  lemma UpdateFailureReported(recs: seq<MedicalRecord>, patientId: string, doctorId: Option<string>,
                              now: int, failing: set<nat>, nextId: nat)
    requires RecordsOfPatient(recs, patientId) != []
    ensures var step := RecordsAfterBooking(recs, patientId, doctorId, now, false, None, failing, nextId);
      var failed := |Filter(RecordsOfPatient(recs, patientId), (x: MedicalRecord) => x.id in failing)|;
      && step.closed
      && (step.error == None <==> failed == 0)
      && (failed > 0 ==> step.error == Some(UpdateFailedMessage(failed)))
  {
  }
}
