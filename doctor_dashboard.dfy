/** The doctor's dashboard page: it lists the distinct patients the doctor has
    appointments with, shows the chosen patient's records newest first, and
    uploads a file for that patient to storage together with a record row. */
module DoctorDashboard {
  import opened Common
  import opened Store

  /** A patient entry as the appointments query joins it in. */
  datatype PatientRef = PatientRef(id: string, fullName: string, email: string)

  const FilesFailedMessage := "Failed to load records."
  const MissingInputMessage := "No file, not authenticated, or no patient selected."
  const UploadFailedMessage := "Failed to upload file. Please try again."
  const SaveFailedMessage := "Failed to save file metadata."
  const UploadedMessage := "File uploaded successfully!"
  const RecordsBucket := "ehr-files"

  /** `data.flatMap(p => p?.patient || [])`: the entries of every row, in row order; a row
      without entries contributes none. */
  function Flatten(rows: seq<Option<seq<PatientRef>>>): (r: seq<PatientRef>)
    ensures forall x :: x in r <==> exists i :: 0 <= i < |rows| && rows[i].Some? && x in rows[i].value
  {
    if rows == [] then []
    else
      var rest := Flatten(rows[1..]);
      assert forall x :: x in rest ==> exists i :: 1 <= i < |rows| && rows[i].Some? && x in rows[i].value by {
        forall x | x in rest ensures exists i :: 1 <= i < |rows| && rows[i].Some? && x in rows[i].value {
          var j :| 0 <= j < |rows[1..]| && rows[1..][j].Some? && x in rows[1..][j].value;
          assert rows[j + 1] == rows[1..][j];
        }
      }
      (if rows[0].Some? then rows[0].value else []) + rest
  }

  /** One row gives its entries, or none when it has no entries. */
  lemma FlattenOfRow(row: Option<seq<PatientRef>>)
    ensures Flatten([row]) == if row.Some? then row.value else []
  {
    assert [row][1..] == [];
  }

  /** Flattening two runs of rows gives the first run's entries followed by the second's, so
      the flattened list keeps every entry, as often as the rows hold it, in row order. */
  lemma {:induction false} FlattenAppend(a: seq<Option<seq<PatientRef>>>, b: seq<Option<seq<PatientRef>>>)
    ensures Flatten(a + b) == Flatten(a) + Flatten(b)
  {
    if a != [] {
      assert (a + b)[1..] == a[1..] + b;
      FlattenAppend(a[1..], b);
    } else {
      assert a + b == b;
    }
  }

  /** The ids of a list of entries. */
  function Ids(l: seq<PatientRef>): (r: seq<string>)
    ensures |r| == |l| && forall i :: 0 <= i < |l| ==> r[i] == l[i].id
  {
    seq(|l|, i requires 0 <= i < |l| => l[i].id)
  }

  /** `map.set(p.id, p)` on a map kept as its list of values: a known id keeps its place and
      takes the new entry, a new id goes last. */
  function Upsert(m: seq<PatientRef>, p: PatientRef): seq<PatientRef> {
    var k := IndexOf(Ids(m), p.id);
    if k < |m| then m[k := p] else m + [p]
  }

  /** `Array.from(new Map(l.map(p => [p.id, p])).values())`. */
  function DedupById(l: seq<PatientRef>): (r: seq<PatientRef>)
    ensures |r| <= |l|
  {
    if l == [] then [] else Upsert(DedupById(l[..|l| - 1]), l[|l| - 1])
  }

  /** The entry an id ends up with when the list is read front to back: its last one. */
  function LastEntry(l: seq<PatientRef>, id: string): (r: Option<PatientRef>)
    ensures r.Some? ==> r.value in l && r.value.id == id
    ensures r.None? <==> id !in Ids(l)
  {
    if l == [] then None
    else if l[|l| - 1].id == id then Some(l[|l| - 1])
    else
      var init := l[..|l| - 1];
      assert Ids(l) == Ids(init) + [l[|l| - 1].id];
      LastEntry(init, id)
  }

  /** The ids of the de-duplicated list are the distinct ids of the list, each once, in the
      order in which the list first shows them. */
  lemma {:induction false} DedupIdsAreDistinctIds(l: seq<PatientRef>)
    ensures Ids(DedupById(l)) == Distinct(Ids(l))
  {
    if l != [] {
      var init, p := l[..|l| - 1], l[|l| - 1];
      var m := DedupById(init);
      DedupIdsAreDistinctIds(init);
      var ids := Ids(l);
      assert ids[..|ids| - 1] == Ids(init) && ids[|ids| - 1] == p.id;
      UpsertIds(m, p);
    }
  }

  /** Setting an entry leaves the ids as they are when its id is known and adds it last
      otherwise. */
  lemma UpsertIds(m: seq<PatientRef>, p: PatientRef)
    ensures Ids(Upsert(m, p)) == if p.id in Ids(m) then Ids(m) else Ids(m) + [p.id]
  {
    var k := IndexOf(Ids(m), p.id);
    if k < |m| {
      assert p.id in Ids(m);
      assert Ids(m[k := p]) == Ids(m);
    } else {
      assert Ids(m + [p]) == Ids(m) + [p.id];
    }
  }

  /** Each id of the de-duplicated list holds the last entry the list has for it. */
  lemma {:induction false} DedupHoldsLastEntries(l: seq<PatientRef>)
    ensures forall i :: 0 <= i < |DedupById(l)| ==> LastEntry(l, DedupById(l)[i].id) == Some(DedupById(l)[i])
  {
    if l != [] {
      var init, p := l[..|l| - 1], l[|l| - 1];
      var m := DedupById(init);
      DedupHoldsLastEntries(init);
      DedupIdsAreDistinctIds(l);
      var r := DedupById(l);
      var k := IndexOf(Ids(m), p.id);
      forall i | 0 <= i < |r| ensures LastEntry(l, r[i].id) == Some(r[i]) {
        if k < |m| {
          assert Ids(r)[k] == p.id;
          if i != k {
            assert Ids(r)[i] != Ids(r)[k];
            assert r[i] == m[i];
          }
        } else if i < |m| {
          assert r[i] == m[i] && Ids(m)[i] == m[i].id;
        }
      }
    }
  }

  /** The patient list a successful query gives: empty unless the data is an array, otherwise
      the flattened entries de-duplicated by id. */
  function PatientList(data: Option<seq<Option<seq<PatientRef>>>>): (r: seq<PatientRef>)
    ensures data.None? ==> r == []
    ensures data.Some? ==> |r| <= |Flatten(data.value)|
  {
    if data.Some? then DedupById(Flatten(data.value)) else []
  }

  /** An id is among the de-duplicated ids exactly when some entry of the list has it. */
  lemma DedupKeepsEveryId(l: seq<PatientRef>, id: string)
    ensures id in Ids(DedupById(l)) <==> exists x :: x in l && x.id == id
  {
    DedupIdsAreDistinctIds(l);
    if exists x :: x in l && x.id == id {
      var x :| x in l && x.id == id;
      var k :| 0 <= k < |l| && l[k] == x;
      assert Ids(l)[k] == id;
    }
    if id in Ids(DedupById(l)) {
      var k :| 0 <= k < |Ids(l)| && Ids(l)[k] == id;
      assert l[k] in l;
    }
  }

  /** The patient list holds exactly the ids of the rows' entries, each once, and under each
      id the last entry the rows give for it. */
  lemma PatientListMeaning(rows: seq<Option<seq<PatientRef>>>)
    ensures var r := PatientList(Some(rows));
      && (forall id :: id in Ids(r) <==> exists x :: x in Flatten(rows) && x.id == id)
      && (forall i, j :: 0 <= i < j < |r| ==> r[i].id != r[j].id)
      && (forall i :: 0 <= i < |r| ==> LastEntry(Flatten(rows), r[i].id) == Some(r[i]))
  {
    var l := Flatten(rows);
    var r := DedupById(l);
    DedupIdsAreDistinctIds(l);
    DedupHoldsLastEntries(l);
    forall id ensures id in Ids(r) <==> exists x :: x in l && x.id == id {
      DedupKeepsEveryId(l, id);
    }
    forall i, j | 0 <= i < j < |r| ensures r[i].id != r[j].id {
      assert Ids(r)[i] != Ids(r)[j];
    }
  }

  /** The row `handleFileUpload` inserts: the patient, the uploading doctor, the file's public
      URL, the file name as summary and no AI summary; `created_at` is the table's default. */
  function UploadedRecord(patientId: string, doctorId: string, fileUrl: string, fileName: string, now: int): MedicalRecord {
    MedicalRecord(0, patientId, Some(doctorId), None, Some(fileUrl), None, Some(fileName), None, Some(now), None)
  }

  /** A record inserted for a patient shows up in the patient's file list. */
  lemma InsertedRecordListed(recs: seq<MedicalRecord>, row: MedicalRecord)
    ensures row in PatientFiles(recs + [row], row.patientId)
  {
    var q := RecordsOfPatient(recs + [row], row.patientId);
    assert row in q;
    assert row in multiset(q);
  }

  class DoctorDashboardView {
    var patients: seq<PatientRef>
    var selectedPatient: string
    var files: seq<MedicalRecord>
    var filesLoading: bool
    var filesError: Option<string>
    var file: Option<UploadFile>
    var uploading: bool
    var uploadError: Option<string>
    var uploadSuccess: Option<string>
    const db: Database
    const storage: Storage

    constructor (db: Database, storage: Storage)
      ensures this.db == db && this.storage == storage
      ensures patients == [] && selectedPatient == "" && files == [] && !filesLoading && filesError == None
      ensures file == None && !uploading && uploadError == None && uploadSuccess == None
    {
      this.db, this.storage := db, storage;
      patients, selectedPatient, files, filesLoading, filesError := [], "", [], false, None;
      file, uploading, uploadError, uploadSuccess := None, false, None, None;
    }

    /** The mount effect `fetchPatients`: without a session nothing changes; a failed query
        empties the list; otherwise the list is built from the query's data. `data` stands for
        the appointments of the doctor with their joined patient entries. */
    method FetchPatients(session: Option<string>, fails: bool, data: Option<seq<Option<seq<PatientRef>>>>)
      modifies this
      ensures session.None? ==> patients == old(patients)
      ensures session.Some? ==> patients == if fails then [] else PatientList(data)
      ensures selectedPatient == old(selectedPatient) && files == old(files) && filesLoading == old(filesLoading)
      ensures filesError == old(filesError) && file == old(file) && uploading == old(uploading)
      ensures uploadError == old(uploadError) && uploadSuccess == old(uploadSuccess)
    {
      if session.None? {
        return;
      }
      if fails {
        patients := [];
      } else {
        patients := PatientList(data);
      }
    }

    /** `fetchFiles`: the patient's records newest first, or an empty list and the error. */
    method FetchFiles(patientId: string, fails: bool)
      modifies this
      ensures !filesLoading
      ensures fails ==> files == [] && filesError == Some(FilesFailedMessage)
      ensures !fails ==> files == PatientFiles(db.records, patientId) && filesError == None
      ensures patients == old(patients) && selectedPatient == old(selectedPatient) && file == old(file)
      ensures uploading == old(uploading) && uploadError == old(uploadError) && uploadSuccess == old(uploadSuccess)
    {
      filesLoading := true;
      filesError := None;
      if fails {
        filesError := Some(FilesFailedMessage);
        files := [];
      } else {
        files := PatientFiles(db.records, patientId);
      }
      filesLoading := false;
    }

    /** Picking a patient, with the effect that loads the files of a non-empty choice. */
    method SelectPatient(patientId: string, fails: bool)
      modifies this
      ensures selectedPatient == patientId
      ensures patientId == "" ==> files == old(files) && filesError == old(filesError) && filesLoading == old(filesLoading)
      ensures patientId != "" ==> !filesLoading && files == (if fails then [] else PatientFiles(db.records, patientId))
      ensures patients == old(patients) && file == old(file)
      ensures uploading == old(uploading) && uploadError == old(uploadError) && uploadSuccess == old(uploadSuccess)
    {
      selectedPatient := patientId;
      if patientId != "" {
        FetchFiles(patientId, fails);
      }
    }

    /** `handleFileUpload`. Without a session, a file or a patient it stops with an error and
        writes nothing. Otherwise the file goes to 'ehr-files' under the patient's timestamped
        path; only after that succeeds is the record row inserted, and only after the insert
        succeeds is the success shown, the file cleared and the list reloaded. `userId` stands
        for the session, `now` for `Date.now()` and `projectUrl` for the project's address. */
    method HandleFileUpload(userId: Option<string>, now: nat, projectUrl: string,
                            uploadFails: bool, recordFails: bool, refetchFails: bool)
      requires db.Valid()
      modifies this, db, storage
      ensures db.Valid() && !uploading
      ensures patients == old(patients) && selectedPatient == old(selectedPatient)
      ensures db.appointments == old(db.appointments) && db.profiles == old(db.profiles)
      ensures userId.None? || old(file).None? || selectedPatient == "" ==>
        && uploadError == Some(MissingInputMessage) && uploadSuccess == None && file == old(file)
        && storage.objects == old(storage.objects) && db.records == old(db.records)
        && files == old(files) && filesError == old(filesError) && filesLoading == old(filesLoading)
      ensures userId.Some? && old(file).Some? && selectedPatient != "" ==>
        var name := old(file).value.name;
        var path := PatientFilePath(selectedPatient, now, name);
        && storage.objects == old(storage.objects) + (if uploadFails then [] else [StoredObject(RecordsBucket, path, name)])
        && db.records == old(db.records) +
             (if uploadFails || recordFails then []
              else [UploadedRecord(selectedPatient, userId.value, PublicUrl(projectUrl, RecordsBucket, path), name, now).(id := old(db.nextId))])
        && (uploadFails || recordFails ==>
              && uploadError == Some(if uploadFails then UploadFailedMessage else SaveFailedMessage)
              && uploadSuccess == None && file == old(file)
              && files == old(files) && filesError == old(filesError) && filesLoading == old(filesLoading))
        && (!uploadFails && !recordFails ==>
              && uploadError == None && uploadSuccess == Some(UploadedMessage) && file == None && !filesLoading
              && files == (if refetchFails then [] else PatientFiles(db.records, selectedPatient)))
    {
      uploading := true;
      uploadError := None;
      uploadSuccess := None;
      if userId.None? || file.None? || selectedPatient == "" {
        uploadError := Some(MissingInputMessage);
        uploading := false;
        return;
      }
      var name := file.value.name;
      var path := PatientFilePath(selectedPatient, now, name);
      var stored := storage.Upload(RecordsBucket, path, file.value, uploadFails);
      if !stored {
        uploadError := Some(UploadFailedMessage);
        uploading := false;
        return;
      }
      var row := UploadedRecord(selectedPatient, userId.value, PublicUrl(projectUrl, RecordsBucket, path), name, now);
      var inserted := db.InsertRecord(row, recordFails);
      if !inserted {
        uploadError := Some(SaveFailedMessage);
        uploading := false;
        return;
      }
      uploadSuccess := Some(UploadedMessage);
      file := None;
      FetchFiles(selectedPatient, refetchFails);
      uploading := false;
    }
  }

  /** After a successful upload whose reload succeeds, the new row is in the list shown. */
  lemma UploadedFileShown(recs: seq<MedicalRecord>, patientId: string, doctorId: string,
                          fileUrl: string, name: string, now: int, id: nat)
    ensures UploadedRecord(patientId, doctorId, fileUrl, name, now).(id := id)
              in PatientFiles(recs + [UploadedRecord(patientId, doctorId, fileUrl, name, now).(id := id)], patientId)
  {
    InsertedRecordListed(recs, UploadedRecord(patientId, doctorId, fileUrl, name, now).(id := id));
  }
}
