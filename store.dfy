/** The hosted table store, held in memory: the `appointments`, `records`
    and `profiles` tables as sequences of rows in one object. Every write
    that the pages issue through the client SDK is a method here that takes
    the call's outcome as a parameter (`fails`): a failed call returns an
    error and leaves the tables as they were; a successful one changes them.
    Queries are the functions below; a query returns the matching rows in
    table order. */
module Store {
  import opened Common

  /** A row of `appointments`. The booking screens and the doctor's list write and
      read the instant in the `date` column; the patient's appointment list orders
      by, reads and rewrites a second column, `appointment_date`, which no booking
      screen fills in (it stays null). */
  datatype Appointment = Appointment(
    id: nat,
    patientId: string,
    doctorId: Option<string>,
    date: int,
    appointmentDate: Option<int>,
    reason: string,
    status: string,
    cancelled: bool)

  /** A row of `records`: either an uploaded file's metadata or the companion
      row that links a patient to a doctor. */
  datatype MedicalRecord = MedicalRecord(
    id: nat,
    patientId: string,
    doctorId: Option<string>,
    filePath: Option<string>,
    fileUrl: Option<string>,
    fileName: Option<string>,
    summary: Option<string>,
    aiSummary: Option<string>,
    createdAt: Option<int>,
    updatedAt: Option<int>)

  /** A row of `profiles`. */
  datatype Profile = Profile(
    id: string,
    fullName: string,
    email: string,
    dateOfBirth: string,
    createdAt: string,
    role: string,
    phone: Option<string>,
    address: Option<string>,
    gender: Option<string>,
    allergies: Option<string>,
    pastMedicalHistory: Option<string>)

  /** The five columns the patient may edit, as sent in one partial update. */
  datatype ProfilePatch = ProfilePatch(
    phone: Option<string>,
    address: Option<string>,
    gender: Option<string>,
    allergies: Option<string>,
    pastMedicalHistory: Option<string>)

  /** A companion record with no file: only the patient, the doctor and timestamps. */
  function CompanionRecord(patientId: string, doctorId: Option<string>, created: int, updated: Option<int>): MedicalRecord {
    MedicalRecord(0, patientId, doctorId, None, None, None, None, None, Some(created), updated)
  }

  /** `.eq('patient_id', p).eq('status', 'upcoming')` on appointments. */
  function PatientUpcoming(appts: seq<Appointment>, patientId: string): (r: seq<Appointment>)
    ensures forall a :: a in r <==> a in appts && a.patientId == patientId && a.status == "upcoming"
  {
    Filter(appts, (a: Appointment) => a.patientId == patientId && a.status == "upcoming")
  }

  /** `.eq('doctor_id', d).eq('date', t).eq('status', 'upcoming')` on appointments. */
  function DoctorUpcomingAt(appts: seq<Appointment>, doctorId: string, instant: int): (r: seq<Appointment>)
    ensures forall a :: a in r <==> a in appts && a.doctorId == Some(doctorId) && a.date == instant && a.status == "upcoming"
  {
    Filter(appts, (a: Appointment) => a.doctorId == Some(doctorId) && a.date == instant && a.status == "upcoming")
  }

  /** `.eq('patient_id', p)` on records. */
  function RecordsOfPatient(recs: seq<MedicalRecord>, patientId: string): (r: seq<MedicalRecord>)
    ensures forall x :: x in r <==> x in recs && x.patientId == patientId
  {
    Filter(recs, (x: MedicalRecord) => x.patientId == patientId)
  }

  /** `.eq('patient_id', p).eq('doctor_id', d)` on records. */
  function RecordsOfPair(recs: seq<MedicalRecord>, patientId: string, doctorId: string): (r: seq<MedicalRecord>)
    ensures forall x :: x in r <==> x in recs && x.patientId == patientId && x.doctorId == Some(doctorId)
  {
    Filter(recs, (x: MedicalRecord) => x.patientId == patientId && x.doctorId == Some(doctorId))
  }

  /** `.update({ status: s }).eq('id', id)`: only the `status` of the row with that id changes. */
  function WithStatus(appts: seq<Appointment>, id: nat, status: string): (r: seq<Appointment>)
    ensures |r| == |appts|
    ensures forall i :: 0 <= i < |r| && appts[i].id != id ==> r[i] == appts[i]
    ensures forall i :: 0 <= i < |r| && appts[i].id == id ==> r[i].status == status && r[i].(status := appts[i].status) == appts[i]
  {
    seq(|appts|, i requires 0 <= i < |appts| => if appts[i].id == id then appts[i].(status := status) else appts[i])
  }

  /** `.update({ date: d }).eq('id', id)`: only the `date` of the row with that id changes. */
  function WithDate(appts: seq<Appointment>, id: nat, date: int): (r: seq<Appointment>)
    ensures |r| == |appts|
    ensures forall i :: 0 <= i < |r| && appts[i].id != id ==> r[i] == appts[i]
    ensures forall i :: 0 <= i < |r| && appts[i].id == id ==> r[i].date == date && r[i].(date := appts[i].date) == appts[i]
  {
    seq(|appts|, i requires 0 <= i < |appts| => if appts[i].id == id then appts[i].(date := date) else appts[i])
  }

  /** `.update({ appointment_date: d }).eq('id', id)`: only the `appointment_date` of the row
      with that id changes; its `date` is left as it was. */
  function WithAppointmentDate(appts: seq<Appointment>, id: nat, date: int): (r: seq<Appointment>)
    ensures |r| == |appts|
    ensures forall i :: 0 <= i < |r| && appts[i].id != id ==> r[i] == appts[i]
    ensures forall i :: 0 <= i < |r| && appts[i].id == id ==>
      r[i].appointmentDate == Some(date) && r[i].(appointmentDate := appts[i].appointmentDate) == appts[i]
  {
    seq(|appts|, i requires 0 <= i < |appts| => if appts[i].id == id then appts[i].(appointmentDate := Some(date)) else appts[i])
  }

  /** Rewriting `appointment_date` does not move a row in the doctor's calendar: the
      doctor's upcoming rows at any instant are the same rows before and after, up to
      that column. So a patient's reschedule neither frees the old slot for the doctor's
      conflict check nor takes the new one. */
  lemma {:induction false} AppointmentDateLeavesSlots(appts: seq<Appointment>, id: nat, date: int,
                                                      doctorId: string, instant: int)
    ensures var before := DoctorUpcomingAt(appts, doctorId, instant);
      var after := DoctorUpcomingAt(WithAppointmentDate(appts, id, date), doctorId, instant);
      && |after| == |before|
      && forall i :: 0 <= i < |after| ==> after[i].(appointmentDate := before[i].appointmentDate) == before[i]
  {
    var at := (a: Appointment) => a.doctorId == Some(doctorId) && a.date == instant && a.status == "upcoming";
    if appts != [] {
      var moved := WithAppointmentDate(appts, id, date);
      assert moved == [moved[0]] + moved[1..];
      assert appts == [appts[0]] + appts[1..];
      assert moved[1..] == WithAppointmentDate(appts[1..], id, date);
      FilterAppend([moved[0]], moved[1..], at);
      FilterAppend([appts[0]], appts[1..], at);
      assert [moved[0]][1..] == [] && [appts[0]][1..] == [];
      AppointmentDateLeavesSlots(appts[1..], id, date, doctorId, instant);
    }
  }

  /** `.delete().eq('id', id)`, and the local `filter(a => a.id !== id)`. */
  function WithoutId(appts: seq<Appointment>, id: nat): (r: seq<Appointment>)
    ensures forall a :: a in r <==> a in appts && a.id != id
  {
    Filter(appts, (a: Appointment) => a.id != id)
  }

  /** `.update(fields).eq('id', id)` on records, for the fields given by `change`. */
  function RecordsUpdated(recs: seq<MedicalRecord>, ids: set<nat>, change: MedicalRecord -> MedicalRecord): (r: seq<MedicalRecord>)
    ensures |r| == |recs|
    ensures forall i :: 0 <= i < |r| && recs[i].id !in ids ==> r[i] == recs[i]
    ensures forall i :: 0 <= i < |r| && recs[i].id in ids ==> r[i] == change(recs[i])
  {
    seq(|recs|, i requires 0 <= i < |recs| => if recs[i].id in ids then change(recs[i]) else recs[i])
  }

  /** `.update(patch).eq('id', userId)` on profiles: the five editable columns take the
      patch's values; every other column of every row is unchanged. */
  function ProfilesPatched(rows: seq<Profile>, userId: string, patch: ProfilePatch): (r: seq<Profile>)
    ensures |r| == |rows|
    ensures forall i :: 0 <= i < |r| && rows[i].id != userId ==> r[i] == rows[i]
    ensures forall i :: 0 <= i < |r| && rows[i].id == userId ==> r[i] == Patched(rows[i], patch)
  {
    seq(|rows|, i requires 0 <= i < |rows| => if rows[i].id == userId then Patched(rows[i], patch) else rows[i])
  }

  function Patched(p: Profile, patch: ProfilePatch): (r: Profile)
    ensures r.id == p.id && r.fullName == p.fullName && r.email == p.email
    ensures r.dateOfBirth == p.dateOfBirth && r.createdAt == p.createdAt && r.role == p.role
    ensures r.phone == patch.phone && r.address == patch.address && r.gender == patch.gender
    ensures r.allergies == patch.allergies && r.pastMedicalHistory == patch.pastMedicalHistory
  {
    p.(phone := patch.phone, address := patch.address, gender := patch.gender,
       allergies := patch.allergies, pastMedicalHistory := patch.pastMedicalHistory)
  }

  /** `.from('profiles').select(...).eq('id', id).single()`: the one row with that id, or an
      error when there is not exactly one such row or the call itself fails. */
  function SingleProfile(profiles: seq<Profile>, id: string, fails: bool): (r: Option<Profile>)
    ensures r.Some? ==> r.value in profiles && r.value.id == id
    ensures r.Some? <==> !fails && |Filter(profiles, (p: Profile) => p.id == id)| == 1
  {
    var rows := Filter(profiles, (p: Profile) => p.id == id);
    if fails || |rows| != 1 then None else Some(rows[0])
  }

  /** The conflict message both booking screens show when the patient already has an
      upcoming appointment: a fixed opening, the formatted date of that appointment, and a
      fixed closing. */
  function ConflictMessage(opening: string, dateText: string, closing: string): (m: string)
    ensures Contains(m, dateText)
  {
    ContainsInConcat(opening, dateText, closing);
    opening + dateText + closing
  }

  /** `${Date.now()}_${file.name}`: the last part of every uploaded file's path. */
  function TimestampedName(now: nat, name: string): string {
    NatToString(now) + "_" + name
  }

  /** The first separator after a run of digits is the one that ends the run. */
  lemma {:induction false} DigitsEndAtSeparator(d: string, sep: char, x: string)
    requires forall i :: 0 <= i < |d| ==> IsDigit(d[i])
    requires !IsDigit(sep)
    ensures IndexOf(d + [sep] + x, sep) == |d|
  {
    if d != [] {
      assert (d + [sep] + x)[0] == d[0];
      assert (d + [sep] + x)[1..] == d[1..] + [sep] + x;
      DigitsEndAtSeparator(d[1..], sep, x);
    }
  }

  /** The time and the file name can be read back from a timestamped name: the digits of the
      time end at its first '_'. */
  lemma TimestampedNameInjective(t1: nat, n1: string, t2: nat, n2: string)
    requires TimestampedName(t1, n1) == TimestampedName(t2, n2)
    ensures t1 == t2 && n1 == n2
  {
    var d1, d2 := NatToString(t1), NatToString(t2);
    var s := TimestampedName(t1, n1);
    DigitsEndAtSeparator(d1, '_', n1);
    DigitsEndAtSeparator(d2, '_', n2);
    assert d1 == s[..|d1|] == d2;
    assert n1 == s[|d1| + 1..] == n2;
  }

  /** `patient-docs/${patientId}/${Date.now()}_${file.name}`: a file filed under a patient's folder. */
  function PatientFilePath(patientId: string, now: nat, name: string): (path: string)
    ensures StartsWith(path, "patient-docs/" + patientId + "/")
  {
    var path := "patient-docs/" + patientId + "/" + TimestampedName(now, name);
    assert path[..|"patient-docs/" + patientId + "/"|] == "patient-docs/" + patientId + "/";
    path
  }

  /** Within one patient's folder, distinct (time, name) pairs give distinct paths. */
  lemma PatientFilePathInjective(patientId: string, t1: nat, n1: string, t2: nat, n2: string)
    requires PatientFilePath(patientId, t1, n1) == PatientFilePath(patientId, t2, n2)
    ensures t1 == t2 && n1 == n2
  {
    var k := |"patient-docs/" + patientId + "/"|;
    assert PatientFilePath(patientId, t1, n1)[k..] == TimestampedName(t1, n1);
    assert PatientFilePath(patientId, t2, n2)[k..] == TimestampedName(t2, n2);
    TimestampedNameInjective(t1, n1, t2, n2);
  }

  /** Whether `a` may precede `b` under `.order('created_at', { ascending: false })`: the newer
      row first, and a row without a time, which the table sorts as the largest, before all. */
  predicate NewerOrSame(a: MedicalRecord, b: MedicalRecord) {
    a.createdAt.None? || (b.createdAt.Some? && a.createdAt.value >= b.createdAt.value)
  }

  predicate NewestFirstOrder(s: seq<MedicalRecord>) {
    forall i, j :: 0 <= i < j < |s| ==> NewerOrSame(s[i], s[j])
  }

  /** Inserting one row into a newest-first list, after the rows at least as new. */
  function InsertNewest(x: MedicalRecord, s: seq<MedicalRecord>): (r: seq<MedicalRecord>)
    requires NewestFirstOrder(s)
    ensures |r| == |s| + 1
    ensures forall i :: 0 <= i < |r| ==> r[i] == x || r[i] in s
    ensures NewestFirstOrder(r)
  {
    if s == [] then [x]
    else if NewerOrSame(x, s[0]) then [x] + s
    else
      var rest := InsertNewest(x, s[1..]);
      assert s == [s[0]] + s[1..];
      HeadNewerThanRest(x, s, rest);
      [s[0]] + rest
  }

  lemma HeadNewerThanRest(x: MedicalRecord, s: seq<MedicalRecord>, rest: seq<MedicalRecord>)
    requires NewestFirstOrder(s) && |s| > 0 && !NewerOrSame(x, s[0])
    requires forall i :: 0 <= i < |rest| ==> rest[i] == x || rest[i] in s[1..]
    ensures forall i :: 0 <= i < |rest| ==> NewerOrSame(s[0], rest[i])
  {
    forall i | 0 <= i < |rest| ensures NewerOrSame(s[0], rest[i]) {
      if rest[i] != x {
        var k :| 0 <= k < |s[1..]| && s[1..][k] == rest[i];
        assert s[k + 1] == rest[i];
      }
    }
  }

  /** Inserting adds exactly the one row. */
  lemma {:induction false} InsertNewestCounts(x: MedicalRecord, s: seq<MedicalRecord>)
    requires NewestFirstOrder(s)
    ensures multiset(InsertNewest(x, s)) == multiset(s) + multiset{x}
  {
    if s != [] && !NewerOrSame(x, s[0]) {
      assert s == [s[0]] + s[1..];
      InsertNewestCounts(x, s[1..]);
    }
  }

  /** `.order('created_at', { ascending: false })` on records: the same rows, newest first. */
  function NewestFirst(s: seq<MedicalRecord>): (r: seq<MedicalRecord>)
    ensures NewestFirstOrder(r) && multiset(r) == multiset(s)
  {
    if s == [] then []
    else
      assert s == [s[0]] + s[1..];
      InsertNewestCounts(s[0], NewestFirst(s[1..]));
      InsertNewest(s[0], NewestFirst(s[1..]))
  }

  /** The name shown for a row's doctor: the full name of the profile the row's `doctor_id` joins to, or
      'Unknown Doctor' when there is no such profile or its name is empty. */
  function DoctorName(profiles: seq<Profile>, doctorId: Option<string>): (name: string)
    ensures name != ""
    ensures name != "Unknown Doctor" ==> exists p :: p in profiles && Some(p.id) == doctorId && p.fullName == name
    ensures (doctorId.None? || forall p :: p in profiles ==> Some(p.id) != doctorId) ==> name == "Unknown Doctor"
    ensures forall k :: 0 <= k < |profiles| && Some(profiles[k].id) == doctorId
                        && (forall j :: 0 <= j < k ==> profiles[j].id != profiles[k].id) ==>
                          name == (if profiles[k].fullName != "" then profiles[k].fullName else "Unknown Doctor")
  {
    if doctorId.None? || profiles == [] then "Unknown Doctor"
    else if profiles[0].id == doctorId.value then
      (if profiles[0].fullName != "" then profiles[0].fullName else "Unknown Doctor")
    else DoctorName(profiles[1..], doctorId)
  }

  /** `storage.from(bucket).getPublicUrl(path)`: the project's URL, the public-object route,
      the bucket and the path. */
  function PublicUrl(projectUrl: string, bucket: string, path: string): string {
    projectUrl + "/storage/v1/object/public/" + bucket + "/" + path
  }

  /** The rows of `.from('records').select('*').eq('patient_id', p).order('created_at', { ascending: false })`. */
  function PatientFiles(recs: seq<MedicalRecord>, patientId: string): (r: seq<MedicalRecord>)
    ensures NewestFirstOrder(r)
    ensures multiset(r) == multiset(RecordsOfPatient(recs, patientId))
  {
    NewestFirst(RecordsOfPatient(recs, patientId))
  }

  /** Appointment ids are below `bound`, and an id identifies one row. */
  predicate AppointmentIdsBelow(appts: seq<Appointment>, bound: nat) {
    && (forall a :: a in appts ==> a.id < bound)
    && (forall a, b :: a in appts && b in appts && a.id == b.id ==> a == b)
  }

  /** Record ids are below `bound`, and an id identifies one row. */
  predicate RecordIdsBelow(recs: seq<MedicalRecord>, bound: nat) {
    && (forall x :: x in recs ==> x.id < bound)
    && (forall x, y :: x in recs && y in recs && x.id == y.id ==> x == y)
  }

  class Database {
    var appointments: seq<Appointment>
    var records: seq<MedicalRecord>
    var profiles: seq<Profile>
    var nextId: nat

    /** Row ids are unique in each table and below the next id the store hands out. */
    ghost predicate Valid()
      reads this
    {
      AppointmentIdsBelow(appointments, nextId) && RecordIdsBelow(records, nextId)
    }

    constructor (profiles: seq<Profile>)
      ensures Valid()
      ensures appointments == [] && records == [] && this.profiles == profiles
    {
      appointments, records, this.profiles, nextId := [], [], profiles, 0;
    }

    /** `.from('appointments').insert(row)`: the store assigns the id. */
    method InsertAppointment(row: Appointment, fails: bool) returns (ok: bool)
      requires Valid()
      modifies this
      ensures Valid() && ok == !fails
      ensures appointments == if ok then old(appointments) + [row.(id := old(nextId))] else old(appointments)
      ensures nextId == if ok then old(nextId) + 1 else old(nextId)
      ensures records == old(records) && profiles == old(profiles)
    {
      ok := !fails;
      if ok {
        var stored := row.(id := nextId);
        appointments := appointments + [stored];
        nextId := nextId + 1;
      }
    }

    /** `.from('appointments').update({ status }).eq('id', id)`. */
    method SetAppointmentStatus(id: nat, status: string, fails: bool) returns (ok: bool)
      requires Valid()
      modifies this
      ensures Valid() && ok == !fails
      ensures appointments == if ok then WithStatus(old(appointments), id, status) else old(appointments)
      ensures records == old(records) && profiles == old(profiles) && nextId == old(nextId)
    {
      ok := !fails;
      if ok {
        appointments := WithStatus(appointments, id, status);
      }
    }

    /** `.from('appointments').update({ date: d }).eq('id', id)`. */
    method SetDate(id: nat, date: int, fails: bool) returns (ok: bool)
      requires Valid()
      modifies this
      ensures Valid() && ok == !fails
      ensures appointments == if ok then WithDate(old(appointments), id, date) else old(appointments)
      ensures records == old(records) && profiles == old(profiles) && nextId == old(nextId)
    {
      ok := !fails;
      if ok {
        appointments := WithDate(appointments, id, date);
      }
    }

    /** `.from('appointments').update({ appointment_date: d }).eq('id', id)`. */
    method SetAppointmentDate(id: nat, date: int, fails: bool) returns (ok: bool)
      requires Valid()
      modifies this
      ensures Valid() && ok == !fails
      ensures appointments == if ok then WithAppointmentDate(old(appointments), id, date) else old(appointments)
      ensures records == old(records) && profiles == old(profiles) && nextId == old(nextId)
    {
      ok := !fails;
      if ok {
        appointments := WithAppointmentDate(appointments, id, date);
      }
    }

    /** `.from('appointments').delete().eq('id', id)`. */
    method DeleteAppointment(id: nat, fails: bool) returns (ok: bool)
      requires Valid()
      modifies this
      ensures Valid() && ok == !fails
      ensures appointments == if ok then WithoutId(old(appointments), id) else old(appointments)
      ensures records == old(records) && profiles == old(profiles) && nextId == old(nextId)
    {
      ok := !fails;
      if ok {
        appointments := WithoutId(appointments, id);
      }
    }

    /** `.from('records').insert(row)`: the store assigns the id. */
    method InsertRecord(row: MedicalRecord, fails: bool) returns (ok: bool)
      requires Valid()
      modifies this
      ensures Valid() && ok == !fails
      ensures records == if ok then old(records) + [row.(id := old(nextId))] else old(records)
      ensures nextId == if ok then old(nextId) + 1 else old(nextId)
      ensures appointments == old(appointments) && profiles == old(profiles)
    {
      ok := !fails;
      if ok {
        var stored := row.(id := nextId);
        records := records + [stored];
        nextId := nextId + 1;
      }
    }

    /** `.from('records').update({ updated_at: t }).eq('id', id)`. */
    method TouchRecord(id: nat, now: int, fails: bool) returns (ok: bool)
      requires Valid()
      modifies this
      ensures Valid() && ok == !fails
      ensures records == if ok then RecordsUpdated(old(records), {id}, (x: MedicalRecord) => x.(updatedAt := Some(now))) else old(records)
      ensures appointments == old(appointments) && profiles == old(profiles) && nextId == old(nextId)
    {
      ok := !fails;
      if ok {
        records := RecordsUpdated(records, {id}, (x: MedicalRecord) => x.(updatedAt := Some(now)));
      }
    }

    /** `.from('records').update({ doctor_id: d, updated_at: t }).eq('id', id)`. */
    method RetargetRecord(id: nat, doctorId: Option<string>, now: int, fails: bool) returns (ok: bool)
      requires Valid()
      modifies this
      ensures Valid() && ok == !fails
      ensures records == if ok then RecordsUpdated(old(records), {id}, Retarget(doctorId, now)) else old(records)
      ensures appointments == old(appointments) && profiles == old(profiles) && nextId == old(nextId)
    {
      ok := !fails;
      if ok {
        records := RecordsUpdated(records, {id}, Retarget(doctorId, now));
      }
    }

    /** `.from('profiles').update(patch).eq('id', userId)`. */
    method UpdateProfile(userId: string, patch: ProfilePatch, fails: bool) returns (ok: bool)
      requires Valid()
      modifies this
      ensures Valid() && ok == !fails
      ensures profiles == if ok then ProfilesPatched(old(profiles), userId, patch) else old(profiles)
      ensures appointments == old(appointments) && records == old(records) && nextId == old(nextId)
    {
      ok := !fails;
      if ok {
        profiles := ProfilesPatched(profiles, userId, patch);
      }
    }
  }

  /** A file picked in a file input; the pages use only its name. */
  datatype UploadFile = UploadFile(name: string)

  /** An object held in a storage bucket under a path. */
  datatype StoredObject = StoredObject(bucket: string, path: string, fileName: string)

  /** The hosted file storage: the objects of every bucket, in upload order. */
  class Storage {
    var objects: seq<StoredObject>

    constructor ()
      ensures objects == []
    {
      objects := [];
    }

    /** `storage.from(bucket).upload(path, file)`. */
    method Upload(bucket: string, path: string, file: UploadFile, fails: bool) returns (ok: bool)
      modifies this
      ensures ok == !fails
      ensures objects == if ok then old(objects) + [StoredObject(bucket, path, file.name)] else old(objects)
    {
      ok := !fails;
      if ok {
        objects := objects + [StoredObject(bucket, path, file.name)];
      }
    }
  }

  /** The change the patient booking screen makes to each of the patient's records. */
  function Retarget(doctorId: Option<string>, now: int): MedicalRecord -> MedicalRecord {
    (x: MedicalRecord) => x.(doctorId := doctorId, updatedAt := Some(now))
  }
}
