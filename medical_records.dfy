/** The doctor's medical-records page for one patient: the patient's records
    newest first, each with a download link signed for an hour, and an upload
    form that stores a file under a name built from the patient and the time
    and then records it in the records table. */
module MedicalRecords {
  import opened Common
  import opened Store

  const RecordsBucket := "ehr-files"
  /** How long a signed download link stays valid, in seconds. */
  const SignedUrlSeconds := 3600
  const NotAuthenticatedAlert := "Not authenticated or Unable to get doctor ID"
  const UploadFailedAlert := "Error uploading file"
  const SaveFailedAlert := "Error saving record"

  /** A record as the page lists it, with the link it offers for download. */
  datatype ListedRecord = ListedRecord(record: MedicalRecord, downloadUrl: Option<string>)

  /** `file.name.split('.').pop() || 'dat'`: the text after the name's last '.', the whole name
      when it has none, and 'dat' when that text is empty. */
  function FileExtension(name: string): (ext: string)
    ensures ext != "" && '.' !in ext
    ensures ext == "dat" || (|ext| <= |name| && ext == name[|name| - |ext|..])
  {
    var last := LastSegment(name, '.');
    if last == "" then "dat" else last
  }

  /** A name ending in '.' and a non-empty extension gets that extension. */
  lemma ExtensionAfterLastDot(base: string, ext: string)
    requires ext != "" && '.' !in ext
    ensures FileExtension(base + "." + ext) == ext
  {
    LastSegmentAfterSeparator(base, '.', ext);
  }

  /** A non-empty name without a '.' is its own extension. */
  lemma DotlessNameIsItsOwnExtension(name: string)
    requires name != "" && '.' !in name
    ensures FileExtension(name) == name
  {
    LastSegmentWithoutSeparator(name, '.');
  }

  /** A name ending in '.' gets 'dat'. */
  lemma TrailingDotGivesDat(base: string)
    ensures FileExtension(base + ".") == "dat"
  {
    LastSegmentAfterSeparator(base, '.', "");
  }

  /** `${patientId}_${Date.now()}.${fileExt}`: the object's name in the bucket. */
  function ObjectName(patientId: string, now: nat, ext: string): (r: string)
    ensures StartsWith(r, patientId + "_")
    ensures |r| >= |patientId| + |ext| + 3 && r[|r| - |ext| - 1..] == "." + ext
  {
    patientId + "_" + NatToString(now) + "." + ext
  }

  /** For one patient the time and the extension can be read back from the object's name:
      the digits of the time end at the first '.' after the patient's id. */
  lemma ObjectNameInjective(patientId: string, t1: nat, e1: string, t2: nat, e2: string)
    requires ObjectName(patientId, t1, e1) == ObjectName(patientId, t2, e2)
    ensures t1 == t2 && e1 == e2
  {
    var d1, d2 := NatToString(t1), NatToString(t2);
    var k := |patientId| + 1;
    var s := ObjectName(patientId, t1, e1);
    assert s[k..] == d1 + "." + e1;
    assert ObjectName(patientId, t2, e2)[k..] == d2 + "." + e2;
    DigitsEndAtSeparator(d1, '.', e1);
    DigitsEndAtSeparator(d2, '.', e2);
    assert d1 == s[k..][..|d1|] == d2;
    assert e1 == s[k..][|d1| + 1..] == e2;
  }

  /** The record list with download links: one entry per record, in the same order; a record
      with a file path gets the link the storage signs for that path for an hour, or none when
      signing fails (`sign` gives `None`); a record without a path gets none. */
  function SignUrls(recs: seq<MedicalRecord>, sign: (string, nat) -> Option<string>): (r: seq<ListedRecord>)
    ensures |r| == |recs|
    ensures forall i :: 0 <= i < |r| ==> r[i].record == recs[i]
    ensures forall i :: 0 <= i < |r| ==>
      r[i].downloadUrl == if Truthy(recs[i].filePath) then sign(recs[i].filePath.value, SignedUrlSeconds) else None
  {
    seq(|recs|, i requires 0 <= i < |recs| =>
      ListedRecord(recs[i], if Truthy(recs[i].filePath) then sign(recs[i].filePath.value, SignedUrlSeconds) else None))
  }

  /** `setRecords(recordsData || [])` after an upload: the records with no download links. */
  function Unsigned(recs: seq<MedicalRecord>): (r: seq<ListedRecord>)
    ensures |r| == |recs| && forall i :: 0 <= i < |r| ==> r[i].record == recs[i] && r[i].downloadUrl.None?
  {
    seq(|recs|, i requires 0 <= i < |recs| => ListedRecord(recs[i], None))
  }

  /** The list reloaded after an upload is the signed list as it would be if every signing
      failed: no entry carries a link. */
  lemma ReloadedListHasNoLinks(recs: seq<MedicalRecord>)
    ensures Unsigned(recs) == SignUrls(recs, (path: string, seconds: nat) => None)
  {
  }

  /** The name a listed record shows: its `file_name` if non-empty, else the last '/' segment
      of its `file_path`, else ''. */
  function DisplayName(rec: MedicalRecord): (name: string)
    ensures Truthy(rec.fileName) ==> name == rec.fileName.value
    ensures !Truthy(rec.fileName) ==> '/' !in name
    ensures !Truthy(rec.fileName) && Truthy(rec.filePath) ==>
      |name| <= |rec.filePath.value| && name == rec.filePath.value[|rec.filePath.value| - |name|..]
    ensures !Truthy(rec.fileName) && Truthy(rec.filePath) ==>
      |name| == |rec.filePath.value| || rec.filePath.value[|rec.filePath.value| - |name| - 1] == '/'
    ensures !Truthy(rec.fileName) && !Truthy(rec.filePath) ==> name == ""
  {
    if Truthy(rec.fileName) then rec.fileName.value
    else if Truthy(rec.filePath) then LastSegment(rec.filePath.value, '/')
    else ""
  }

  /** A record with no file name that points into a patient's folder shows the timestamped
      file name, provided the file's own name has no '/'. */
  lemma DisplayNameOfFolderPath(rec: MedicalRecord, patientId: string, now: nat, name: string)
    requires !Truthy(rec.fileName) && rec.filePath == Some(PatientFilePath(patientId, now, name))
    requires '/' !in name
    ensures DisplayName(rec) == TimestampedName(now, name)
  {
    var digits := NatToString(now);
    assert '/' !in digits by {
      forall i | 0 <= i < |digits| ensures digits[i] != '/' {
        assert IsDigit(digits[i]);
      }
    }
    var stamped := TimestampedName(now, name);
    assert '/' !in stamped by {
      forall i | 0 <= i < |stamped| ensures stamped[i] != '/' {
        if i < |digits| {
          assert stamped[i] == digits[i];
        } else if i > |digits| {
          assert stamped[i] == name[i - |digits| - 1];
        }
      }
    }
    assert PatientFilePath(patientId, now, name) == ("patient-docs/" + patientId) + ['/'] + stamped;
    LastSegmentAfterSeparator("patient-docs/" + patientId, '/', stamped);
  }

  /** The record row `handleUpload` inserts: the patient, the uploading doctor, the object's
      path, the file's name as name and summary, and no AI summary; `created_at` is the
      table's default. */
  function UploadedRecord(patientId: string, doctorId: string, path: string, fileName: string, now: int): MedicalRecord {
    MedicalRecord(0, patientId, Some(doctorId), Some(path), None, Some(fileName), Some(fileName), None, Some(now), None)
  }

  /** The page's state; `patientId` is the page's `patient_id` query value, '' when missing. */
  class MedicalRecordsPage {
    var records: seq<ListedRecord>
    var loading: bool
    var file: Option<UploadFile>
    var uploading: bool
    /** The last message the page showed in an alert box. */
    var alertShown: Option<string>
    const patientId: string
    const db: Database
    const storage: Storage

    constructor (patientId: string, db: Database, storage: Storage)
      ensures this.patientId == patientId && this.db == db && this.storage == storage
      ensures records == [] && loading && file == None && !uploading && alertShown == None
    {
      this.patientId, this.db, this.storage := patientId, db, storage;
      records, loading, file, uploading, alertShown := [], true, None, false, None;
    }

    /** The effect `fetchRecords`: without a patient id nothing happens (the page keeps
        loading); a failed query keeps the old list; otherwise the list is the patient's
        records newest first with their signed links. */
    method FetchRecords(fails: bool, sign: (string, nat) -> Option<string>)
      modifies this
      ensures patientId == "" ==> records == old(records) && loading == old(loading)
      ensures patientId != "" ==> !loading
      ensures patientId != "" ==> records == if fails then old(records) else SignUrls(PatientFiles(db.records, patientId), sign)
      ensures file == old(file) && uploading == old(uploading) && alertShown == old(alertShown)
    {
      if patientId == "" {
        return;
      }
      loading := true;
      if !fails {
        records := SignUrls(PatientFiles(db.records, patientId), sign);
      }
      loading := false;
    }

    /** `handleUpload`. Without a file or a patient id nothing happens. Without a signed-in
        user it alerts and stops. Otherwise the file is stored under its object name; only
        when that succeeds is the record row inserted, and only when the insert succeeds is
        the file cleared and the list reloaded, with no download links. `now` stands for
        `Date.now()`. */
    method HandleUpload(userId: Option<string>, now: nat, uploadFails: bool, insertFails: bool, refetchFails: bool)
      requires db.Valid()
      modifies this, db, storage
      ensures db.Valid()
      ensures db.appointments == old(db.appointments) && db.profiles == old(db.profiles)
      ensures loading == old(loading)
      ensures old(file).None? || patientId == "" ==>
        && records == old(records) && file == old(file) && uploading == old(uploading) && alertShown == old(alertShown)
        && storage.objects == old(storage.objects) && db.records == old(db.records)
      ensures old(file).Some? && patientId != "" ==> !uploading
      ensures old(file).Some? && patientId != "" && userId.None? ==>
        && alertShown == Some(NotAuthenticatedAlert) && records == old(records) && file == old(file)
        && storage.objects == old(storage.objects) && db.records == old(db.records)
      ensures old(file).Some? && patientId != "" && userId.Some? ==>
        var f := old(file).value;
        var path := ObjectName(patientId, now, FileExtension(f.name));
        && storage.objects == old(storage.objects) + (if uploadFails then [] else [StoredObject(RecordsBucket, path, f.name)])
        && db.records == old(db.records) +
             (if uploadFails || insertFails then [] else [UploadedRecord(patientId, userId.value, path, f.name, now).(id := old(db.nextId))])
        && (uploadFails || insertFails ==>
              && alertShown == Some(if uploadFails then UploadFailedAlert else SaveFailedAlert)
              && records == old(records) && file == old(file))
        && (!uploadFails && !insertFails ==>
              && alertShown == old(alertShown) && file == None
              && records == (if refetchFails then [] else Unsigned(PatientFiles(db.records, patientId))))
    {
      if file.None? || patientId == "" {
        return;
      }
      uploading := true;
      if userId.None? {
        alertShown := Some(NotAuthenticatedAlert);
        uploading := false;
        return;
      }
      var f := file.value;
      var alert := SaveUpload(userId.value, f, now, uploadFails, insertFails);
      ShowOutcome(alert, refetchFails);
    }

    /** After the writes: a failure is alerted; a success clears the picked file and reloads
        the list. The `finally` clause clears `uploading`. */
    method ShowOutcome(alert: Option<string>, refetchFails: bool)
      modifies this
      ensures !uploading && loading == old(loading)
      ensures alert.Some? ==> alertShown == alert && records == old(records) && file == old(file)
      ensures alert.None? ==>
        && alertShown == old(alertShown) && file == None
        && records == (if refetchFails then [] else Unsigned(PatientFiles(db.records, patientId)))
    {
      if alert.Some? {
        alertShown := alert;
      } else {
        file := None;
        records := if refetchFails then [] else Unsigned(PatientFiles(db.records, patientId));
      }
      uploading := false;
    }

    /** The two writes of `handleUpload` for a signed-in user: the file goes into the bucket
        under its object name, and only when that succeeds is the record row inserted. The
        result is the alert the page shows, if any. */
    method SaveUpload(userId: string, f: UploadFile, now: nat, uploadFails: bool, insertFails: bool)
      returns (alert: Option<string>)
      requires db.Valid()
      modifies db, storage
      ensures db.Valid()
      ensures db.appointments == old(db.appointments) && db.profiles == old(db.profiles)
      ensures alert == if uploadFails then Some(UploadFailedAlert) else if insertFails then Some(SaveFailedAlert) else None
      ensures var path := ObjectName(patientId, now, FileExtension(f.name));
        && storage.objects == old(storage.objects) + (if uploadFails then [] else [StoredObject(RecordsBucket, path, f.name)])
        && db.records == old(db.records) +
             (if uploadFails || insertFails then [] else [UploadedRecord(patientId, userId, path, f.name, now).(id := old(db.nextId))])
    {
      var path := ObjectName(patientId, now, FileExtension(f.name));
      var stored := storage.Upload(RecordsBucket, path, f, uploadFails);
      if !stored {
        return Some(UploadFailedAlert);
      }
      var inserted := db.InsertRecord(UploadedRecord(patientId, userId, path, f.name, now), insertFails);
      alert := if inserted then None else Some(SaveFailedAlert);
    }
  }
}
