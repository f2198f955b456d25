/** The doctor's booking screen (`pages/dashboard/doctor/book-appointment.tsx`):
    the submit handler's admission checks, the appointment insert and the
    companion-record upsert. The target instant stands for the local date and
    time already converted to an absolute instant. */
module DoctorBooking {
  import opened Common
  import opened Store

  /** What the submit handler's checks decide, in the order it makes them. */
  datatype Verdict =
    | MissingIds
    | PatientCheckFailed
    | PatientHasUpcoming(first: Appointment)
    | DoctorCheckFailed
    | SlotTaken
    | Admitted

  /** The sequence of checks before the insert: the ids, then the patient's upcoming
      appointments (with any doctor), then the doctor's upcoming appointment at exactly
      the target instant. A failing query stops the chain where it happens. */
  function Admission(appts: seq<Appointment>, patientId: Option<string>, doctorId: Option<string>,
                     instant: int, patientCheckFails: bool, doctorCheckFails: bool): Verdict
  {
    if !Truthy(patientId) || !Truthy(doctorId) then MissingIds
    else if patientCheckFails then PatientCheckFailed
    else
      var busy := PatientUpcoming(appts, patientId.value);
      if |busy| > 0 then PatientHasUpcoming(busy[0])
      else if doctorCheckFails then DoctorCheckFailed
      else if |DoctorUpcomingAt(appts, doctorId.value, instant)| > 0 then SlotTaken
      else Admitted
  }

  /** What the verdict means: a booking is admitted exactly when both ids are present,
      both queries succeed, the patient has no upcoming appointment at all and the doctor
      none at the target instant; the ids are reported missing exactly when one is falsy;
      a patient conflict names one of the patient's upcoming appointments, and one is
      reported whenever such an appointment exists and the patient query succeeded; a failed
      patient query is reported whenever the ids are present, and a failed doctor query only
      when the patient has no upcoming appointment. */
  lemma AdmissionMeaning(appts: seq<Appointment>, patientId: Option<string>, doctorId: Option<string>,
                         instant: int, patientCheckFails: bool, doctorCheckFails: bool)
    ensures var v := Admission(appts, patientId, doctorId, instant, patientCheckFails, doctorCheckFails);
      && (v == Admitted <==>
            && Truthy(patientId) && Truthy(doctorId) && !patientCheckFails && !doctorCheckFails
            && (forall a :: a in appts ==> !(a.patientId == patientId.value && a.status == "upcoming"))
            && (forall a :: a in appts ==> !(a.doctorId == doctorId && a.date == instant && a.status == "upcoming")))
      && (v == MissingIds <==> !Truthy(patientId) || !Truthy(doctorId))
      && (v.PatientHasUpcoming? ==> v.first in appts && v.first.patientId == patientId.value && v.first.status == "upcoming")
      && (Truthy(patientId) && Truthy(doctorId) && !patientCheckFails
          && (exists a :: a in appts && a.patientId == patientId.value && a.status == "upcoming")
          ==> v.PatientHasUpcoming?)
      && (v == PatientCheckFailed <==> Truthy(patientId) && Truthy(doctorId) && patientCheckFails)
      && (v == DoctorCheckFailed <==>
            && Truthy(patientId) && Truthy(doctorId) && !patientCheckFails && doctorCheckFails
            && forall a :: a in appts ==> !(a.patientId == patientId.value && a.status == "upcoming"))
  {
    if Truthy(patientId) && Truthy(doctorId) && !patientCheckFails {
      var busy := PatientUpcoming(appts, patientId.value);
      var clash := DoctorUpcomingAt(appts, doctorId.value, instant);
      if |busy| > 0 {
        assert busy[0] in busy;
      } else if |clash| > 0 {
        assert clash[0] in clash;
      }
    }
  }

  /** The row the screen inserts: the given patient, doctor, instant (in `date`) and reason,
      status 'upcoming' and not cancelled; `appointment_date` is not written. */
  function NewAppointment(patientId: string, doctorId: string, instant: int, reason: string): Appointment {
    Appointment(0, patientId, Some(doctorId), instant, None, reason, "upcoming", false)
  }

  const MissingIdsMessage := "Patient or Doctor ID is missing. Cannot book appointment."
  const PatientCheckMessage := "Failed to verify patient appointment availability."
  const DoctorCheckMessage := "Failed to verify doctor availability."
  const SlotTakenMessage := "You already have an appointment scheduled at this time. Please choose a different slot."
  const UnexpectedMessage := "An unexpected error occurred during booking."

  /** The conflict message for a patient who already has an upcoming appointment, written
      phrase by phrase, which keeps proofs that unfold it small. */
  function PatientBusyMessage(dateText: string): string {
    ConflictMessage("This patient already has " + "an upcoming appointment on ", dateText,
                    ". Please manage " + "existing appointments first.")
  }

  /** The records table after the companion step: look for the pair's record (a failed
      lookup reads as "none"); insert one when none was found, otherwise stamp
      `updated_at` on the first one found. A failed write leaves the table as it was. */
  function CompanionUpsert(recs: seq<MedicalRecord>, patientId: string, doctorId: string, now: int,
                           fetchFails: bool, writeFails: bool, nextId: nat): (r: seq<MedicalRecord>)
    ensures writeFails ==> r == recs
    ensures |r| == |recs| || |r| == |recs| + 1
    ensures forall i :: 0 <= i < |recs| ==> r[i].(updatedAt := recs[i].updatedAt) == recs[i]
    ensures |r| == |recs| + 1 ==> IsFreshCompanion(r[|recs|], patientId, doctorId, now, nextId)
    ensures fetchFails && !writeFails ==> |r| == |recs| + 1
  {
    var existing := if fetchFails then [] else RecordsOfPair(recs, patientId, doctorId);
    if writeFails then recs
    else if existing == [] then recs + [CompanionRecord(patientId, Some(doctorId), now, Some(now)).(id := nextId)]
    else RecordsUpdated(recs, {existing[0].id}, (x: MedicalRecord) => x.(updatedAt := Some(now)))
  }

  /** The error the screen shows after a submission with that verdict. A failed insert
      first shows its own message or 'Failed to book appointment.'; the rethrown error is
      then caught and the message becomes its own message or the generic one. */
  function ErrorAfter(v: Verdict, formatDate: int -> string, insertError: Option<string>): (r: Option<string>)
    ensures r.None? <==> v == Admitted && insertError.None?
    ensures v.PatientHasUpcoming? ==> r.Some? && Contains(r.value, formatDate(v.first.date))
  {
    match v
    case MissingIds => Some(MissingIdsMessage)
    case PatientCheckFailed => Some(PatientCheckMessage)
    case PatientHasUpcoming(first) => Some(PatientBusyMessage(formatDate(first.date)))
    case DoctorCheckFailed => Some(DoctorCheckMessage)
    case SlotTaken => Some(SlotTakenMessage)
    case Admitted => InsertError(insertError)
  }

  /** The error left after the insert: none when it succeeds, otherwise the insert's own
      message, or the generic one when that message is empty. */
  function InsertError(insertError: Option<string>): (r: Option<string>)
    ensures r.None? <==> insertError.None?
    ensures r.Some? ==> r.value != ""
    ensures insertError.Some? && insertError.value != "" ==> r == insertError
  {
    if insertError.None? then None
    else Some(if insertError.value != "" then insertError.value else UnexpectedMessage)
  }

  /** The booking screen's state and its submit handler. */
  class DoctorBookingPage {
    const db: Database
    var patientId: Option<string>
    var doctorId: Option<string>
    var error: Option<string>
    var submitting: bool
    var redirected: bool

    constructor (db: Database, patientId: Option<string>, doctorId: Option<string>)
      ensures this.db == db && this.patientId == patientId && this.doctorId == doctorId
      ensures error == None && !submitting && !redirected
    {
      this.db, this.patientId, this.doctorId := db, patientId, doctorId;
      error, submitting, redirected := None, false, false;
    }

    /** `handleSubmit`. The query and write outcomes are parameters; `insertError` is the
        insert's error message when it fails. */
    method HandleSubmit(instant: int, reason: string, formatDate: int -> string,
                        patientCheckFails: bool, doctorCheckFails: bool, insertError: Option<string>,
                        recordFetchFails: bool, recordWriteFails: bool, now: int)
      requires db.Valid()
      modifies this, db
      ensures db.Valid()
      ensures patientId == old(patientId) && doctorId == old(doctorId)
      ensures db.profiles == old(db.profiles)
      ensures var v := Admission(old(db.appointments), patientId, doctorId, instant, patientCheckFails, doctorCheckFails);
        var booked := v == Admitted && insertError.None?;
        && error == ErrorAfter(v, formatDate, insertError)
        && submitting == (if v == MissingIds then old(submitting) else false)
        && redirected == booked
        && db.appointments == (if booked then old(db.appointments)
                                 + [NewAppointment(patientId.value, doctorId.value, instant, reason).(id := old(db.nextId))]
                               else old(db.appointments))
        && db.records == (if booked then CompanionUpsert(old(db.records), patientId.value, doctorId.value, now,
                                                         recordFetchFails, recordWriteFails, old(db.nextId) + 1)
                          else old(db.records))
    {
      var v := CheckAdmission(instant, patientCheckFails, doctorCheckFails);
      Respond(v, instant, reason, formatDate, insertError, recordFetchFails, recordWriteFails, now);
    }

    /** A press of the form's submit button. The button is disabled while a submission is in
        flight or while the date, the time slot or the reason is empty, and then nothing
        happens; otherwise the press runs `handleSubmit`. `instant` stands for the chosen date
        and slot as one instant. */
    method PressSubmit(date: string, time: string, instant: int, reason: string, formatDate: int -> string,
                       patientCheckFails: bool, doctorCheckFails: bool, insertError: Option<string>,
                       recordFetchFails: bool, recordWriteFails: bool, now: int)
      requires db.Valid()
      modifies this, db
      ensures db.Valid()
      ensures !SubmitEnabled(old(submitting), date, time, reason) ==> unchanged(this) && unchanged(db)
      ensures patientId == old(patientId) && doctorId == old(doctorId)
      ensures db.profiles == old(db.profiles)
      ensures SubmitEnabled(old(submitting), date, time, reason) ==>
        var v := Admission(old(db.appointments), patientId, doctorId, instant, patientCheckFails, doctorCheckFails);
        var booked := v == Admitted && insertError.None?;
        && error == ErrorAfter(v, formatDate, insertError)
        && !submitting
        && redirected == booked
        && db.appointments == (if booked then old(db.appointments)
                                 + [NewAppointment(patientId.value, doctorId.value, instant, reason).(id := old(db.nextId))]
                               else old(db.appointments))
        && db.records == (if booked then CompanionUpsert(old(db.records), patientId.value, doctorId.value, now,
                                                         recordFetchFails, recordWriteFails, old(db.nextId) + 1)
                          else old(db.records))
    {
      if SubmitEnabled(submitting, date, time, reason) {
        HandleSubmit(instant, reason, formatDate, patientCheckFails, doctorCheckFails, insertError,
                     recordFetchFails, recordWriteFails, now);
      }
    }

    /** What `handleSubmit` does once the checks have reached verdict `v`: report it, or
        book when it is `Admitted`. */
    method Respond(v: Verdict, instant: int, reason: string, formatDate: int -> string,
                   insertError: Option<string>, recordFetchFails: bool, recordWriteFails: bool, now: int)
      requires db.Valid()
      requires v == Admitted ==> Truthy(patientId) && Truthy(doctorId)
      modifies this, db
      ensures db.Valid()
      ensures patientId == old(patientId) && doctorId == old(doctorId)
      ensures db.profiles == old(db.profiles)
      ensures var booked := v == Admitted && insertError.None?;
        && error == ErrorAfter(v, formatDate, insertError)
        && submitting == (if v == MissingIds then old(submitting) else false)
        && redirected == booked
        && db.appointments == (if booked then old(db.appointments)
                                 + [NewAppointment(patientId.value, doctorId.value, instant, reason).(id := old(db.nextId))]
                               else old(db.appointments))
        && db.records == (if booked then CompanionUpsert(old(db.records), patientId.value, doctorId.value, now,
                                                         recordFetchFails, recordWriteFails, old(db.nextId) + 1)
                          else old(db.records))
    {
      redirected := false;
      if v == MissingIds {
        error := Some(MissingIdsMessage);
        return;
      }
      if v == Admitted {
        Submit(instant, reason, insertError, recordFetchFails, recordWriteFails, now);
      } else {
        TurnAway(v, formatDate, insertError);
      }
    }

    /** A verdict other than the id check's that turns the submission away, from
        `setSubmitting(true)` to the `finally` clause. */
    method TurnAway(v: Verdict, formatDate: int -> string, insertError: Option<string>)
      requires v != MissingIds && v != Admitted
      modifies this
      ensures error == ErrorAfter(v, formatDate, insertError) && !submitting
      ensures patientId == old(patientId) && doctorId == old(doctorId) && redirected == old(redirected)
    {
      Begin();
      Reject(v, formatDate, insertError);
      Finish();
    }

    /** The admitted path of `handleSubmit` from `setSubmitting(true)` to the `finally` clause. */
    method Submit(instant: int, reason: string, insertError: Option<string>,
                  recordFetchFails: bool, recordWriteFails: bool, now: int)
      requires db.Valid() && Truthy(patientId) && Truthy(doctorId) && !redirected
      modifies this, db
      ensures db.Valid() && !submitting
      ensures patientId == old(patientId) && doctorId == old(doctorId)
      ensures db.profiles == old(db.profiles)
      ensures error == InsertError(insertError)
      ensures redirected == insertError.None?
      ensures db.appointments == (if insertError.None? then old(db.appointments)
                                    + [NewAppointment(patientId.value, doctorId.value, instant, reason).(id := old(db.nextId))]
                                  else old(db.appointments))
      ensures db.records == (if insertError.None? then CompanionUpsert(old(db.records), patientId.value, doctorId.value, now,
                                                                      recordFetchFails, recordWriteFails, old(db.nextId) + 1)
                             else old(db.records))
    {
      Begin();
      Book(instant, reason, insertError, recordFetchFails, recordWriteFails, now);
      Finish();
    }

    /** Past the id check: `submitting` is set and the error cleared. */
    method Begin()
      modifies this
      ensures submitting && error == None
      ensures patientId == old(patientId) && doctorId == old(doctorId) && redirected == old(redirected)
    {
      submitting := true;
      error := None;
    }

    /** The message for a verdict that turns the submission away after the id check. */
    method Reject(v: Verdict, formatDate: int -> string, insertError: Option<string>)
      requires v != MissingIds && v != Admitted
      modifies this
      ensures error == ErrorAfter(v, formatDate, insertError)
      ensures patientId == old(patientId) && doctorId == old(doctorId)
      ensures submitting == old(submitting) && redirected == old(redirected)
    {
      match v {
        case PatientCheckFailed => error := Some(PatientCheckMessage);
        case PatientHasUpcoming(first) => error := Some(PatientBusyMessage(formatDate(first.date)));
        case DoctorCheckFailed => error := Some(DoctorCheckMessage);
        case SlotTaken => error := Some(SlotTakenMessage);
      }
    }

    /** The `finally` clause: `submitting` is cleared and nothing else changes. */
    method Finish()
      modifies this
      ensures !submitting
      ensures patientId == old(patientId) && doctorId == old(doctorId)
      ensures error == old(error) && redirected == old(redirected)
    {
      submitting := false;
    }

    /** The part of `handleSubmit` after the checks pass: the insert, then the companion
        record. A failed insert shows its own message or 'Failed to book appointment.'; the
        rethrown error is then caught and the message becomes its own message or the
        generic one. A failed record write is only logged: the booking still succeeds. */
    method Book(instant: int, reason: string, insertError: Option<string>,
                recordFetchFails: bool, recordWriteFails: bool, now: int)
      requires db.Valid() && Truthy(patientId) && Truthy(doctorId) && error == None && !redirected
      modifies this, db
      ensures db.Valid()
      ensures patientId == old(patientId) && doctorId == old(doctorId) && submitting == old(submitting)
      ensures db.profiles == old(db.profiles)
      ensures error == InsertError(insertError)
      ensures redirected == insertError.None?
      ensures db.appointments == (if insertError.None? then old(db.appointments)
                                    + [NewAppointment(patientId.value, doctorId.value, instant, reason).(id := old(db.nextId))]
                                  else old(db.appointments))
      ensures db.records == (if insertError.None? then CompanionUpsert(old(db.records), patientId.value, doctorId.value, now,
                                                                      recordFetchFails, recordWriteFails, old(db.nextId) + 1)
                             else old(db.records))
    {
      var p, d := patientId.value, doctorId.value;
      var inserted := db.InsertAppointment(NewAppointment(p, d, instant, reason), insertError.Some?);
      if !inserted {
        ReportInsertFailure(insertError.value);
      } else {
        UpsertCompanion(p, d, now, recordFetchFails, recordWriteFails);
        Redirect();
      }
    }

    /** A failed insert shows its own message or 'Failed to book appointment.'; the error is
        rethrown and the handler's catch overwrites the message with its own message or the
        generic one. */
    method ReportInsertFailure(message: string)
      modifies this
      ensures error == InsertError(Some(message))
      ensures patientId == old(patientId) && doctorId == old(doctorId)
      ensures submitting == old(submitting) && redirected == old(redirected)
    {
      error := Some(if message != "" then message else "Failed to book appointment.");
      error := Some(if message != "" then message else UnexpectedMessage);
    }

    /** `router.push(...)` after a booking. */
    method Redirect()
      modifies this
      ensures redirected
      ensures patientId == old(patientId) && doctorId == old(doctorId)
      ensures error == old(error) && submitting == old(submitting)
    {
      redirected := true;
    }

    /** The checks of `handleSubmit` before the insert, in the order it makes them:
        the ids, the patient's upcoming appointments, the doctor's calendar at the instant.
        Each query's outcome is a parameter; the tables are only read. */
    method CheckAdmission(instant: int, patientCheckFails: bool, doctorCheckFails: bool) returns (v: Verdict)
      ensures v == Admission(db.appointments, patientId, doctorId, instant, patientCheckFails, doctorCheckFails)
    {
      if !Truthy(patientId) || !Truthy(doctorId) {
        return MissingIds;
      }
      if patientCheckFails {
        return PatientCheckFailed;
      }
      var busy := PatientUpcoming(db.appointments, patientId.value);
      if |busy| > 0 {
        return PatientHasUpcoming(busy[0]);
      }
      if doctorCheckFails {
        return DoctorCheckFailed;
      }
      if |DoctorUpcomingAt(db.appointments, doctorId.value, instant)| > 0 {
        return SlotTaken;
      }
      return Admitted;
    }

    /** The companion-record step after a successful insert. */
    method UpsertCompanion(p: string, d: string, now: int, recordFetchFails: bool, recordWriteFails: bool)
      requires db.Valid()
      modifies db
      ensures db.Valid()
      ensures db.records == CompanionUpsert(old(db.records), p, d, now, recordFetchFails, recordWriteFails, old(db.nextId))
      ensures db.appointments == old(db.appointments) && db.profiles == old(db.profiles)
    {
      var existing := if recordFetchFails then [] else RecordsOfPair(db.records, p, d);
      var recordWritten;
      if existing == [] {
        recordWritten := db.InsertRecord(CompanionRecord(p, Some(d), now, Some(now)), recordWriteFails);
      } else {
        recordWritten := db.TouchRecord(existing[0].id, now, recordWriteFails);
      }
    }
  }

  /** After an admitted booking the patient has exactly one upcoming appointment and the
      doctor exactly one upcoming appointment at that instant: the new row. */
  lemma {:induction false} AdmittedBookingIsTheOnlyUpcoming(appts: seq<Appointment>, patientId: string, doctorId: string,
                                                            instant: int, reason: string, id: nat)
    requires Admission(appts, Some(patientId), Some(doctorId), instant, false, false) == Admitted
    ensures var row := NewAppointment(patientId, doctorId, instant, reason).(id := id);
      && PatientUpcoming(appts + [row], patientId) == [row]
      && DoctorUpcomingAt(appts + [row], doctorId, instant) == [row]
  {
    var row := NewAppointment(patientId, doctorId, instant, reason).(id := id);
    var forPatient := (a: Appointment) => a.patientId == patientId && a.status == "upcoming";
    var forDoctor := (a: Appointment) => a.doctorId == Some(doctorId) && a.date == instant && a.status == "upcoming";
    AdmissionMeaning(appts, Some(patientId), Some(doctorId), instant, false, false);
    FilterAppend(appts, [row], forPatient);
    FilterAppend(appts, [row], forDoctor);
    forall i | 0 <= i < |appts| ensures !forPatient(appts[i]) && !forDoctor(appts[i]) {
      assert appts[i] in appts;
    }
    FilterKeepsNone(appts, forPatient);
    FilterKeepsNone(appts, forDoctor);
  }

  /** A patient with an upcoming appointment is turned away before the doctor's calendar is
      looked at: the verdict does not depend on the doctor check or on any other row. */
  lemma PatientCheckComesFirst(appts: seq<Appointment>, patientId: string, doctorId: string, instant: int,
                               doctorCheckFails: bool, a: Appointment)
    requires a in appts && a.patientId == patientId && a.status == "upcoming"
    requires doctorId != "" && patientId != ""
    ensures Admission(appts, Some(patientId), Some(doctorId), instant, false, doctorCheckFails).PatientHasUpcoming?
  {
    AdmissionMeaning(appts, Some(patientId), Some(doctorId), instant, false, doctorCheckFails);
  }

  /** The companion step with a successful lookup: when the pair has no record, exactly one
      is inserted for it, with the next id, no file and both timestamps at `now`; when it
      has one, the table keeps its rows, the first record found gets `updated_at` set to
      `now`, and nothing else changes. */
  lemma {:induction false} CompanionUpsertEffect(recs: seq<MedicalRecord>, patientId: string, doctorId: string,
                                                 now: int, nextId: nat)
    requires RecordIdsBelow(recs, nextId)
    ensures var after := CompanionUpsert(recs, patientId, doctorId, now, false, false, nextId);
      && (RecordsOfPair(recs, patientId, doctorId) == [] ==>
            && after[..|recs|] == recs
            && RecordsOfPair(after, patientId, doctorId) == [after[|recs|]]
            && IsFreshCompanion(after[|recs|], patientId, doctorId, now, nextId))
      && (RecordsOfPair(recs, patientId, doctorId) != [] ==>
            && |after| == |recs|
            && (forall i :: 0 <= i < |recs| && recs[i] == RecordsOfPair(recs, patientId, doctorId)[0] ==>
                  after[i] == recs[i].(updatedAt := Some(now)))
            && (forall i :: 0 <= i < |recs| && recs[i] != RecordsOfPair(recs, patientId, doctorId)[0] ==>
                  after[i] == recs[i]))
  {
    if RecordsOfPair(recs, patientId, doctorId) == [] {
      CompanionInserted(recs, patientId, doctorId, now, nextId);
    } else {
      CompanionTouched(recs, patientId, doctorId, now, nextId);
    }
  }

  /** The row the companion insert writes: the next id, the pair, no file, no summaries,
      and `created_at` and `updated_at` both at `now`. */
  predicate IsFreshCompanion(r: MedicalRecord, patientId: string, doctorId: string, now: int, nextId: nat) {
    && r.id == nextId && r.patientId == patientId && r.doctorId == Some(doctorId)
    && r.filePath == None && r.fileUrl == None && r.fileName == None
    && r.summary == None && r.aiSummary == None
    && r.createdAt == Some(now) && r.updatedAt == Some(now)
  }

  /** A pair without a record gets exactly one, appended after the existing rows. */
  lemma CompanionInserted(recs: seq<MedicalRecord>, patientId: string, doctorId: string, now: int, nextId: nat)
    requires RecordsOfPair(recs, patientId, doctorId) == []
    ensures var after := CompanionUpsert(recs, patientId, doctorId, now, false, false, nextId);
      && |after| == |recs| + 1 && after[..|recs|] == recs
      && RecordsOfPair(after, patientId, doctorId) == [after[|recs|]]
      && IsFreshCompanion(after[|recs|], patientId, doctorId, now, nextId)
  {
    var pair := (x: MedicalRecord) => x.patientId == patientId && x.doctorId == Some(doctorId);
    var row := CompanionRecord(patientId, Some(doctorId), now, Some(now)).(id := nextId);
    var after := CompanionUpsert(recs, patientId, doctorId, now, false, false, nextId);
    assert after == recs + [row];
    assert after[..|recs|] == recs;
    FilterAppend(recs, [row], pair);
    assert Filter([row], pair) == [row];
  }

  /** A pair with a record: the first record found, and only it, gets `updated_at` set to `now`. */
  lemma CompanionTouched(recs: seq<MedicalRecord>, patientId: string, doctorId: string, now: int, nextId: nat)
    requires RecordIdsBelow(recs, nextId)
    requires RecordsOfPair(recs, patientId, doctorId) != []
    ensures var after := CompanionUpsert(recs, patientId, doctorId, now, false, false, nextId);
      && |after| == |recs|
      && (forall i :: 0 <= i < |recs| && recs[i] == RecordsOfPair(recs, patientId, doctorId)[0] ==>
            after[i] == recs[i].(updatedAt := Some(now)))
      && (forall i :: 0 <= i < |recs| && recs[i] != RecordsOfPair(recs, patientId, doctorId)[0] ==>
            after[i] == recs[i])
  {
    var found := RecordsOfPair(recs, patientId, doctorId);
    var after := CompanionUpsert(recs, patientId, doctorId, now, false, false, nextId);
    assert found[0] in recs;
    forall i | 0 <= i < |recs| && recs[i] != found[0] ensures after[i] == recs[i] {
      assert recs[i].id != found[0].id;
    }
  }

  /** A failed lookup reads as "no record", so the screen inserts a second companion record
      for a pair that already has one. */
  lemma {:induction false} FailedLookupDuplicatesCompanion(recs: seq<MedicalRecord>, patientId: string, doctorId: string,
                                                          now: int, nextId: nat)
    requires |RecordsOfPair(recs, patientId, doctorId)| == 1
    ensures |RecordsOfPair(CompanionUpsert(recs, patientId, doctorId, now, true, false, nextId), patientId, doctorId)| == 2
  {
    var pair := (x: MedicalRecord) => x.patientId == patientId && x.doctorId == Some(doctorId);
    var row := CompanionRecord(patientId, Some(doctorId), now, Some(now)).(id := nextId);
    FilterAppend(recs, [row], pair);
  }

  /** Whether the submit button is enabled: not while a submission is in flight, and only
      once the date, the time slot and the reason are all filled in. */
  function SubmitEnabled(submitting: bool, date: string, time: string, reason: string): (enabled: bool)
    ensures enabled <==> !submitting && date != "" && time != "" && reason != ""
  {
    !(submitting || date == "" || time == "" || reason == "")
  }
}
