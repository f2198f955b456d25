/** The patient's records tab: the patient's records newest first, each with
    the name of the doctor it is filed under, and an upload that stores a file
    in the patient's folder and records it as filed by the patient. */
module RecordsTab {
  import opened Common
  import opened Store

  const RecordsBucket := "ehr-files"
  const LoadFailedMessage := "Failed to load medical records"
  const NotAuthenticatedMessage := "Not authenticated"
  /** The message shown for a failure whose thrown value is not an `Error`. */
  const UploadFailedMessage := "Failed to upload file"

  /** A record as the tab lists it, with its doctor's name. */
  datatype RecordRow = RecordRow(record: MedicalRecord, doctorName: string)

  /** What a failed step throws: its message, and whether the thrown value is an `Error`. */
  datatype Failure = Failure(message: string, isError: bool)

  /** The catch block's message: an `Error`'s own message, otherwise the fixed text. */
  function FailureMessage(f: Failure): (m: string)
    ensures f.isError ==> m == f.message
    ensures !f.isError ==> m == UploadFailedMessage
  {
    if f.isError then f.message else UploadFailedMessage
  }

  /** The list the tab shows for a patient: the patient's records newest first, each with the
      joined doctor's full name or 'Unknown Doctor'. */
  function Listing(recs: seq<MedicalRecord>, profiles: seq<Profile>, patientId: string): (r: seq<RecordRow>)
    ensures |r| == |PatientFiles(recs, patientId)|
    ensures forall i :: 0 <= i < |r| ==> r[i].record == PatientFiles(recs, patientId)[i]
    ensures forall i :: 0 <= i < |r| ==> r[i].doctorName == DoctorName(profiles, r[i].record.doctorId)
  {
    var files := PatientFiles(recs, patientId);
    seq(|files|, i requires 0 <= i < |files| => RecordRow(files[i], DoctorName(profiles, files[i].doctorId)))
  }

  /** Every row of the listing belongs to the patient, and every record of the patient is listed. */
  lemma ListingMeaning(recs: seq<MedicalRecord>, profiles: seq<Profile>, patientId: string)
    ensures forall x :: x in recs && x.patientId == patientId <==>
      exists i :: 0 <= i < |Listing(recs, profiles, patientId)| && Listing(recs, profiles, patientId)[i].record == x
  {
    var files := PatientFiles(recs, patientId);
    var rows := Listing(recs, profiles, patientId);
    forall x ensures x in recs && x.patientId == patientId <==> exists i :: 0 <= i < |rows| && rows[i].record == x {
      assert x in files <==> x in multiset(files);
      assert x in RecordsOfPatient(recs, patientId) <==> x in multiset(RecordsOfPatient(recs, patientId));
      if x in files {
        var i :| 0 <= i < |files| && files[i] == x;
        assert rows[i].record == x;
      }
    }
  }

  /** `publicUrl.replace(/^https?:\/\/[^\/]+/, '')`: the URL without a leading scheme and host;
      a URL that does not start that way is left as it is. */
  function StripOrigin(url: string): (r: string)
    ensures |r| <= |url| && r == url[|url| - |r|..]
    ensures !StartsWith(url, "http://") && !StartsWith(url, "https://") ==> r == url
  {
    var scheme := if StartsWith(url, "https://") then 8 else if StartsWith(url, "http://") then 7 else 0;
    if scheme == 0 then url
    else
      var host := IndexOf(url[scheme..], '/');
      if host == 0 then url else url[scheme + host..]
  }

  /** `publicUrl ? … : ''`: the public path, '' when there is no URL. */
  function PublicPath(publicUrl: Option<string>): (r: string)
    ensures !Truthy(publicUrl) ==> r == ""
  {
    if Truthy(publicUrl) then StripOrigin(publicUrl.value) else ""
  }

  /** The public URL of an object in a project served over HTTPS from a host loses exactly the
      scheme and host: what remains is the public-object route, the bucket and the path. */
  lemma PublicPathOfPublicUrl(host: string, bucket: string, path: string)
    requires host != "" && '/' !in host
    ensures PublicPath(Some(PublicUrl("https://" + host, bucket, path))) == "/storage/v1/object/public/" + bucket + "/" + path
  {
    var rest := "/storage/v1/object/public/" + bucket + "/" + path;
    assert PublicUrl("https://" + host, bucket, path) == "https://" + host + rest;
    assert rest[0] == '/';
    StripHttpsOrigin(host, rest);
  }

  /** An HTTPS URL loses its scheme and its host, and keeps everything from the next '/'. */
  lemma StripHttpsOrigin(host: string, rest: string)
    requires host != "" && '/' !in host && |rest| > 0 && rest[0] == '/'
    ensures StripOrigin("https://" + host + rest) == rest
  {
    var url := "https://" + host + rest;
    assert url[..8] == "https://";
    assert url[8..] == host + rest;
    HostEndsAtSlash(host, rest);
    assert url[8 + |host|..] == rest;
  }

  /** The first '/' after a host without one is the one that ends it. */
  lemma {:induction false} HostEndsAtSlash(host: string, rest: string)
    requires '/' !in host && |rest| > 0 && rest[0] == '/'
    ensures IndexOf(host + rest, '/') == |host|
  {
    if host != [] {
      assert (host + rest)[0] == host[0];
      assert (host + rest)[1..] == host[1..] + rest;
      HostEndsAtSlash(host[1..], rest);
    }
  }

  /** The row the upload inserts: filed by the uploader for the uploader, with the storage
      path, the file's name as name and summary, and no AI summary; `created_at` is the
      table's default. */
  function UploadedRecord(userId: string, path: string, fileName: string, now: int): MedicalRecord {
    MedicalRecord(0, userId, Some(userId), Some(path), None, Some(fileName), Some(fileName), None, Some(now), None)
  }

  /** The uploaded file's row appears in the uploader's listing. */
  lemma UploadedRecordListed(recs: seq<MedicalRecord>, profiles: seq<Profile>, userId: string,
                             path: string, name: string, now: int, id: nat)
    ensures var row := UploadedRecord(userId, path, name, now).(id := id);
      exists i :: 0 <= i < |Listing(recs + [row], profiles, userId)| && Listing(recs + [row], profiles, userId)[i].record == row
  {
    var row := UploadedRecord(userId, path, name, now).(id := id);
    ListingMeaning(recs + [row], profiles, userId);
  }

  class RecordsTabView {
    var records: seq<RecordRow>
    var loading: bool
    var error: Option<string>
    var uploading: bool
    var uploadError: Option<string>
    const db: Database
    const storage: Storage

    constructor (db: Database, storage: Storage)
      ensures this.db == db && this.storage == storage
      ensures records == [] && loading && error == None && !uploading && uploadError == None
    {
      this.db, this.storage := db, storage;
      records, loading, error, uploading, uploadError := [], true, None, false, None;
    }

    /** The mount effect `fetchRecords`: without a session the list stays as it was; a failed
        query shows the load error; otherwise the list is the patient's listing. Loading ends
        in every case. */
    method FetchRecords(userId: Option<string>, fails: bool)
      modifies this
      ensures !loading && uploading == old(uploading) && uploadError == old(uploadError)
      ensures userId.None? || fails ==> records == old(records)
      ensures userId.Some? && fails ==> error == Some(LoadFailedMessage)
      ensures userId.None? ==> error == old(error)
      ensures userId.Some? && !fails ==> records == Listing(db.records, db.profiles, userId.value) && error == old(error)
    {
      if userId.Some? {
        if fails {
          error := Some(LoadFailedMessage);
        } else {
          records := Listing(db.records, db.profiles, userId.value);
        }
      }
      loading := false;
    }

    /** `handleFileUpload`. With no file nothing happens. Otherwise the first failing step ends
        the upload with its message: no session, the storage upload, the row insert, the reload.
        The file goes to the uploader's folder; the row is inserted only after the file is
        stored; the list is replaced only after all steps succeed. Uploading ends false. */
    method HandleFileUpload(file: Option<UploadFile>, userId: Option<string>, now: nat,
                            uploadFailure: Option<Failure>, insertFailure: Option<Failure>, fetchFailure: Option<Failure>)
      requires db.Valid()
      modifies this, db, storage
      ensures db.Valid()
      ensures db.appointments == old(db.appointments) && db.profiles == old(db.profiles)
      ensures loading == old(loading) && error == old(error)
      ensures file.None? ==>
        && records == old(records) && uploading == old(uploading) && uploadError == old(uploadError)
        && storage.objects == old(storage.objects) && db.records == old(db.records)
      ensures file.Some? ==> !uploading
      ensures file.Some? && userId.None? ==>
        && uploadError == Some(NotAuthenticatedMessage) && records == old(records)
        && storage.objects == old(storage.objects) && db.records == old(db.records)
      ensures file.Some? && userId.Some? ==>
        var path := PatientFilePath(userId.value, now, file.value.name);
        var stored := uploadFailure.None?;
        var inserted := stored && insertFailure.None?;
        && storage.objects == old(storage.objects) + (if stored then [StoredObject(RecordsBucket, path, file.value.name)] else [])
        && db.records == old(db.records) + (if inserted then [UploadedRecord(userId.value, path, file.value.name, now).(id := old(db.nextId))] else [])
        && (!stored ==> uploadError == Some(FailureMessage(uploadFailure.value)) && records == old(records))
        && (stored && !inserted ==> uploadError == Some(FailureMessage(insertFailure.value)) && records == old(records))
        && (inserted && fetchFailure.Some? ==> uploadError == Some(FailureMessage(fetchFailure.value)) && records == old(records))
        && (inserted && fetchFailure.None? ==> uploadError == None && records == Listing(db.records, db.profiles, userId.value))
    {
      if file.None? {
        return;
      }
      uploading := true;
      uploadError := None;
      if userId.None? {
        uploadError := Some(NotAuthenticatedMessage);
        uploading := false;
        return;
      }
      var failure := SaveUpload(userId.value, file.value, now, uploadFailure, insertFailure);
      if failure.None? && fetchFailure.Some? {
        failure := fetchFailure;
      }
      if failure.Some? {
        uploadError := Some(FailureMessage(failure.value));
      } else {
        records := Listing(db.records, db.profiles, userId.value);
      }
      uploading := false;
    }

    /** The two writes of the upload: the file goes to the uploader's folder, and only when that
        succeeds is the row inserted. The result is the first failure, if any. */
    method SaveUpload(userId: string, f: UploadFile, now: nat, uploadFailure: Option<Failure>, insertFailure: Option<Failure>)
      returns (failure: Option<Failure>)
      requires db.Valid()
      modifies db, storage
      ensures db.Valid()
      ensures db.appointments == old(db.appointments) && db.profiles == old(db.profiles)
      ensures failure == if uploadFailure.Some? then uploadFailure else insertFailure
      ensures var path := PatientFilePath(userId, now, f.name);
        && storage.objects == old(storage.objects) + (if uploadFailure.None? then [StoredObject(RecordsBucket, path, f.name)] else [])
        && db.records == old(db.records) +
             (if uploadFailure.None? && insertFailure.None? then [UploadedRecord(userId, path, f.name, now).(id := old(db.nextId))] else [])
    {
      var path := PatientFilePath(userId, now, f.name);
      var stored := storage.Upload(RecordsBucket, path, f, uploadFailure.Some?);
      if !stored {
        return uploadFailure;
      }
      var inserted := db.InsertRecord(UploadedRecord(userId, path, f.name, now), insertFailure.Some?);
      failure := insertFailure;
    }
  }
}
