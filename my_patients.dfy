/** The doctor's "My patients" tab: after checking that the caller is a doctor,
    it collects the distinct patients of the doctor's active appointments, loads
    their profiles with their appointments and records joined in, and shows one
    card per patient with defaults for the missing fields and status badges. */
module MyPatients {
  import opened Common
  import opened Store

  /** One appointment as the joined query nests it under a patient. */
  datatype PatientAppointment = PatientAppointment(id: nat, date: int, reason: string, status: string)

  /** One row of the joined patients query: a profile with its nested appointments and record ids,
      each of which may come back missing. */
  datatype JoinedPatient = JoinedPatient(
    id: string,
    fullName: Option<string>,
    email: Option<string>,
    phone: Option<string>,
    dob: Option<string>,
    gender: Option<string>,
    role: Option<string>,
    appointments: Option<seq<PatientAppointment>>,
    records: Option<seq<nat>>)

  /** One patient card as the tab keeps it. */
  datatype PatientCard = PatientCard(
    id: string,
    fullName: string,
    email: string,
    phone: string,
    dob: string,
    gender: string,
    appointments: seq<PatientAppointment>,
    records: seq<nat>,
    medicalRecordsCount: nat)

  const UnknownPatient := "Unknown Patient"

  /** `value || ''`. */
  function OrEmpty(o: Option<string>): string {
    if Truthy(o) then o.value else ""
  }

  /** `value || []`. */
  function OrNone<T>(o: Option<seq<T>>): seq<T> {
    if o.Some? then o.value else []
  }

  /** The card of a joined row: missing texts become '' (the name 'Unknown Patient'), missing
      lists become empty, and the record count is the number of records the card holds. */
  function ToCard(p: JoinedPatient): (c: PatientCard)
    ensures c.id == p.id && c.fullName != ""
    ensures Truthy(p.fullName) ==> c.fullName == p.fullName.value
    ensures !Truthy(p.fullName) ==> c.fullName == UnknownPatient
    ensures Truthy(p.email) ==> c.email == p.email.value
    ensures !Truthy(p.email) ==> c.email == ""
    ensures Truthy(p.phone) ==> c.phone == p.phone.value
    ensures !Truthy(p.phone) ==> c.phone == ""
    ensures Truthy(p.dob) ==> c.dob == p.dob.value
    ensures !Truthy(p.dob) ==> c.dob == ""
    ensures Truthy(p.gender) ==> c.gender == p.gender.value
    ensures !Truthy(p.gender) ==> c.gender == ""
    ensures p.appointments.Some? ==> c.appointments == p.appointments.value
    ensures p.records.Some? ==> c.records == p.records.value
    ensures c.medicalRecordsCount == |c.records|
    ensures p.records.None? ==> c.medicalRecordsCount == 0
    ensures p.appointments.None? ==> c.appointments == []
  {
    PatientCard(p.id, if Truthy(p.fullName) then p.fullName.value else UnknownPatient,
                OrEmpty(p.email), OrEmpty(p.phone), OrEmpty(p.dob), OrEmpty(p.gender),
                OrNone(p.appointments), OrNone(p.records),
                if p.records.Some? && |p.records.value| > 0 then |p.records.value| else 0)
  }

  /** `.eq('doctor_id', d).in('status', ['upcoming', 'completed']).eq('cancelled', false)`. */
  function ActiveAppointmentsOf(appts: seq<Appointment>, doctorId: string): (r: seq<Appointment>)
    ensures forall a :: a in r <==>
      a in appts && a.doctorId == Some(doctorId) && (a.status == "upcoming" || a.status == "completed") && !a.cancelled
  {
    Filter(appts, (a: Appointment) => a.doctorId == Some(doctorId) && (a.status == "upcoming" || a.status == "completed") && !a.cancelled)
  }

  /** `Array.from(new Set(appts.map(a => a.patient_id).filter(Boolean)))`: every non-empty
      patient id of the appointments, each once, and no empty id. */
  function UniquePatientIds(appts: seq<Appointment>): (r: seq<string>)
    ensures forall x :: x in r <==> x != "" && exists a :: a in appts && a.patientId == x
    ensures forall i, j :: 0 <= i < j < |r| ==> r[i] != r[j]
  {
    var ids := seq(|appts|, i requires 0 <= i < |appts| => appts[i].patientId);
    var kept := Filter(ids, (x: string) => x != "");
    KeptIds(appts, ids, kept);
    Distinct(kept)
  }

  /** The ids the filter keeps are exactly the non-empty patient ids of the appointments. */
  lemma KeptIds(appts: seq<Appointment>, ids: seq<string>, kept: seq<string>)
    requires |ids| == |appts| && forall i :: 0 <= i < |appts| ==> ids[i] == appts[i].patientId
    requires forall i :: 0 <= i < |kept| ==> kept[i] in ids && kept[i] != ""
    requires forall i :: 0 <= i < |ids| && ids[i] != "" ==> ids[i] in kept
    ensures forall x :: x in kept <==> x != "" && exists a :: a in appts && a.patientId == x
  {
    forall x ensures x in kept <==> x != "" && exists a :: a in appts && a.patientId == x {
      if x in kept {
        var i :| 0 <= i < |kept| && kept[i] == x;
        var k :| 0 <= k < |ids| && ids[k] == x;
        assert appts[k] in appts;
      }
      if x != "" && exists a :: a in appts && a.patientId == x {
        var a :| a in appts && a.patientId == x;
        var k :| 0 <= k < |appts| && appts[k] == a;
        assert ids[k] == x;
      }
    }
  }

  /** `appts.some(a => a.status === status)`: whether a badge for that status shows. */
  function HasStatus(appts: seq<PatientAppointment>, status: string): (b: bool)
    ensures b <==> exists i :: 0 <= i < |appts| && appts[i].status == status
  {
    if appts == [] then false
    else appts[0].status == status || HasStatus(appts[1..], status)
  }

  /** The Upcoming and Completed badges of a card. */
  function Badges(c: PatientCard): (r: (bool, bool))
    ensures r.0 <==> exists a :: a in c.appointments && a.status == "upcoming"
    ensures r.1 <==> exists a :: a in c.appointments && a.status == "completed"
  {
    (HasStatus(c.appointments, "upcoming"), HasStatus(c.appointments, "completed"))
  }

  /** Whether the joined query `.in('id', ids).eq('role', 'patient')` returns the row. */
  predicate QueryReturns(p: JoinedPatient, ids: seq<string>) {
    p.id in ids && p.role == Some("patient")
  }

  /** The cards of the joined query `.in('id', ids).eq('role', 'patient')`, in the query's order:
      every card is the card of a returned row, and every returned row has its card. */
  function Cards(joined: seq<JoinedPatient>, ids: seq<string>): (r: seq<PatientCard>)
    ensures |r| <= |joined|
  {
    var rows := Filter(joined, (p: JoinedPatient) => QueryReturns(p, ids));
    seq(|rows|, i requires 0 <= i < |rows| => ToCard(rows[i]))
  }

  /** A card is shown exactly for the rows the query returns: every card is the card of
      such a row, and every such row has its card. */
  lemma CardsMeaning(joined: seq<JoinedPatient>, ids: seq<string>)
    ensures forall c :: c in Cards(joined, ids) ==>
      exists p :: p in joined && QueryReturns(p, ids) && c == ToCard(p)
    ensures forall p :: p in joined && QueryReturns(p, ids) ==> ToCard(p) in Cards(joined, ids)
  {
    var rows := Filter(joined, (p: JoinedPatient) => QueryReturns(p, ids));
    CardOfEveryRow(rows, Cards(joined, ids));
  }

  /** Every row of the list has its card in the list of cards made row by row. */
  lemma CardOfEveryRow(rows: seq<JoinedPatient>, r: seq<PatientCard>)
    requires |r| == |rows| && forall i :: 0 <= i < |rows| ==> r[i] == ToCard(rows[i])
    ensures forall p :: p in rows ==> ToCard(p) in r
  {
    forall p | p in rows ensures ToCard(p) in r {
      var i :| 0 <= i < |rows| && rows[i] == p;
      assert r[i] == ToCard(p);
    }
  }

  /** The cards of two runs of rows are the cards of the first followed by those of the
      second, so the cards keep the query's order. */
  lemma CardsAppend(a: seq<JoinedPatient>, b: seq<JoinedPatient>, ids: seq<string>)
    ensures Cards(a + b, ids) == Cards(a, ids) + Cards(b, ids)
  {
    var keep := (p: JoinedPatient) => QueryReturns(p, ids);
    FilterAppend(a, b, keep);
    var ra, rb := Filter(a, keep), Filter(b, keep);
    var l, ca, cb := Cards(a + b, ids), Cards(a, ids), Cards(b, ids);
    assert |l| == |ca| + |cb|;
    forall i | 0 <= i < |l| ensures l[i] == (ca + cb)[i] {
      if i < |ra| {
        assert (ra + rb)[i] == ra[i];
      } else {
        assert (ra + rb)[i] == rb[i - |ra|];
      }
    }
  }

  /** One row gives its card when the query returns it (its id is asked for and its role is
      'patient') and nothing otherwise; with `CardsAppend` this fixes `Cards` on every input. */
  lemma CardsOfRow(p: JoinedPatient, ids: seq<string>)
    ensures Cards([p], ids) == if QueryReturns(p, ids) then [ToCard(p)] else []
  {
    assert [p][1..] == [];
  }

  class MyPatientsTabView {
    var patients: seq<PatientCard>
    var loading: bool
    var selectedPatient: Option<PatientCard>
    var isPatientModalOpen: bool
    const db: Database

    constructor (db: Database)
      ensures this.db == db && patients == [] && loading && selectedPatient == None && !isPatientModalOpen
    {
      this.db := db;
      patients, loading, selectedPatient, isPatientModalOpen := [], true, None, false;
    }

    /** `fetchPatients`. It stops, showing the list it had, when there is no user, when the
        user's one profile row does not say 'doctor' or cannot be read, when the appointments
        query fails, or when the patients query fails; otherwise the list becomes the cards
        of the patients among the distinct patient ids of the doctor's active appointments.
        `joined` stands for the profiles with their nested appointments (already limited to
        this doctor's) and record ids, as the joined query reads them. */
    method FetchPatients(userId: Option<string>, profileFails: bool, appointmentsFails: bool,
                         joined: seq<JoinedPatient>, patientsFails: bool)
      modifies this
      ensures !loading && selectedPatient == old(selectedPatient) && isPatientModalOpen == old(isPatientModalOpen)
      ensures var proceeds := userId.Some? && !appointmentsFails && !patientsFails &&
                var row := SingleProfile(db.profiles, userId.value, profileFails);
                row.Some? && row.value.role == "doctor";
        patients == if proceeds then Cards(joined, UniquePatientIds(ActiveAppointmentsOf(db.appointments, userId.value)))
                    else old(patients)
    {
      if userId.None? {
        loading := false;
        return;
      }
      var row := SingleProfile(db.profiles, userId.value, profileFails);
      if row.None? || row.value.role != "doctor" {
        loading := false;
        return;
      }
      if appointmentsFails {
        loading := false;
        return;
      }
      var ids := UniquePatientIds(ActiveAppointmentsOf(db.appointments, userId.value));
      if patientsFails {
        loading := false;
        return;
      }
      patients := Cards(joined, ids);
      loading := false;
    }

    /** `openPatientDetails`. */
    method OpenPatientDetails(patient: PatientCard)
      modifies this
      ensures selectedPatient == Some(patient) && isPatientModalOpen
      ensures patients == old(patients) && loading == old(loading)
    {
      selectedPatient := Some(patient);
      isPatientModalOpen := true;
    }

    /** `closePatientModal`. */
    method ClosePatientModal()
      modifies this
      ensures selectedPatient == None && !isPatientModalOpen
      ensures patients == old(patients) && loading == old(loading)
    {
      isPatientModalOpen := false;
      selectedPatient := None;
    }
  }
}
