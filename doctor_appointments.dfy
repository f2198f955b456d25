/** The doctor's plain appointments page: the doctor's appointments, a cancel
    button that deletes a row, and a reschedule panel that moves one. */
module DoctorAppointments {
  import opened Common
  import opened Store

  /** `.from('appointments').select(...).eq('doctor_id', d)`: the doctor's appointments. */
  function DoctorRows(appts: seq<Appointment>, doctorId: string): (r: seq<Appointment>)
    ensures forall a :: a in r <==> a in appts && a.doctorId == Some(doctorId)
  {
    Filter(appts, (a: Appointment) => a.doctorId == Some(doctorId))
  }

  /** Whether the reschedule panel shows: exactly when an appointment is picked for it. */
  predicate PanelShown(rescheduleId: Option<nat>) {
    rescheduleId.Some?
  }

  /** When the delete succeeds, removing the row from the shown list keeps the list equal to
      what a reload would show. */
  lemma CancelKeepsListInStep(appts: seq<Appointment>, doctorId: string, id: nat)
    ensures WithoutId(DoctorRows(appts, doctorId), id) == DoctorRows(WithoutId(appts, id), doctorId)
  {
    FilterCommutes(appts, (a: Appointment) => a.doctorId == Some(doctorId), (a: Appointment) => a.id != id);
  }

  /** When the delete fails, the row is hidden from the list although the table still holds it. */
  lemma FailedCancelHidesAStoredRow(appts: seq<Appointment>, doctorId: string, a: Appointment)
    requires a in appts && a.doctorId == Some(doctorId)
    ensures a in DoctorRows(appts, doctorId) && a !in WithoutId(DoctorRows(appts, doctorId), a.id)
  {
  }

  class DoctorAppointmentsView {
    var appointments: seq<Appointment>
    var rescheduleId: Option<nat>
    var newDate: string
    /** Set once the page has asked the browser to reload. */
    var reloadRequested: bool
    const db: Database

    constructor (db: Database)
      ensures this.db == db && appointments == [] && rescheduleId == None && newDate == "" && !reloadRequested
      ensures !PanelShown(rescheduleId)
    {
      this.db := db;
      appointments, rescheduleId, newDate, reloadRequested := [], None, "", false;
    }

    /** The effect `fetchAppointments`: only with a session, and only a successful query
        replaces the list. */
    method FetchAppointments(userId: Option<string>, fails: bool)
      modifies this
      ensures appointments == if userId.Some? && !fails then DoctorRows(db.appointments, userId.value) else old(appointments)
      ensures rescheduleId == old(rescheduleId) && newDate == old(newDate) && reloadRequested == old(reloadRequested)
    {
      if userId.Some? && !fails {
        appointments := DoctorRows(db.appointments, userId.value);
      }
    }

    /** `cancel`: the row is deleted from the table, and every entry with that id leaves the
        list, the others keeping their order, whatever the delete's outcome. */
    method Cancel(id: nat, fails: bool)
      requires db.Valid()
      modifies this, db
      ensures db.Valid()
      ensures db.appointments == if fails then old(db.appointments) else WithoutId(old(db.appointments), id)
      ensures db.records == old(db.records) && db.profiles == old(db.profiles)
      ensures appointments == WithoutId(old(appointments), id)
      ensures rescheduleId == old(rescheduleId) && newDate == old(newDate) && reloadRequested == old(reloadRequested)
    {
      var _ := db.DeleteAppointment(id, fails);
      appointments := WithoutId(appointments, id);
    }

    /** The Reschedule button of a row: the panel opens for that row. */
    method PickForReschedule(id: nat)
      modifies this
      ensures rescheduleId == Some(id) && PanelShown(rescheduleId)
      ensures appointments == old(appointments) && newDate == old(newDate) && reloadRequested == old(reloadRequested)
    {
      rescheduleId := Some(id);
    }

    /** `reschedule`: the picked row takes the new instant (`instant` stands for
        `new Date(newDate)`), whatever the outcome the panel closes with an empty date, and the
        page reloads. With no row picked the update matches no row. */
    method Reschedule(instant: int, fails: bool)
      requires db.Valid()
      modifies this, db
      ensures db.Valid()
      ensures db.appointments ==
        if old(rescheduleId).Some? && !fails then WithDate(old(db.appointments), old(rescheduleId).value, instant)
        else old(db.appointments)
      ensures db.records == old(db.records) && db.profiles == old(db.profiles)
      ensures rescheduleId == None && newDate == "" && !PanelShown(rescheduleId) && reloadRequested
      ensures appointments == old(appointments)
    {
      if rescheduleId.Some? {
        var _ := db.SetDate(rescheduleId.value, instant, fails);
      }
      rescheduleId := None;
      newDate := "";
      reloadRequested := true;
    }
  }
}
