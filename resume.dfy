/** The resume upload request: a PENDING resume for the ingestion worker, listed in its folder. */
module Resumes {
  import opened Wrappers
  import opened Text
  import opened Records
  import opened DocumentStore

  /** What the multipart middleware stored: the saved file's path and its original name. */
  datatype UploadedFile = UploadedFile(path: string, originalName: string)

  /** The defaults of the resume schema: PENDING, no retries yet, three allowed. */
  function NewResume(folder: Id, file: UploadedFile): (r: Resume)
    ensures r.status == Status.Pending && r.retries == 0 && r.maxRetries == 3
    ensures r.folderId == folder && r.localPath == file.path && r.originalName == file.originalName
    ensures r.errorReason.None? && r.cloudinary.None? && r.extracted.None?
  {
    Resume(folder, file.originalName, file.path, Status.Pending, 0, 3, None, None, None)
  }

  /**
   * The text of an id in a message. An ObjectId prints as 24 hexadecimal
   * digits; ids are numbers here, printed in decimal.
   */
  function IdText(id: Id): (t: string)
    ensures |t| > 0 && forall i :: 0 <= i < |t| ==> '0' <= t[i] <= '9'
  {
    DecimalString(id)
  }

  /** `uploadResume`: any caller may add a resume to any existing folder. */
  method UploadResume(st: Store, folderId: RawId, file: Option<UploadedFile>) returns (resp: Response<Id>)
    requires st.Valid()
    modifies st`resumes, st`folders, st`nextId
    ensures st.Valid()
    ensures !folderId.Oid? ==> resp == BadRequest("Invalid folder id")
    ensures folderId.Oid? && file.None? ==> resp == BadRequest("No resume file uploaded")
    ensures folderId.Oid? && file.Some? && folderId.id !in old(st.folders) ==>
      resp == NotFound("No Folder Exist of id " + IdText(folderId.id))
    ensures resp.Ok? <==> folderId.Oid? && file.Some? && folderId.id in old(st.folders)
    ensures !resp.Ok? ==>
      st.resumes == old(st.resumes) && st.folders == old(st.folders) && st.nextId == old(st.nextId)
    ensures resp.Ok? ==>
      var fid, rid := folderId.id, resp.value;
      && rid == old(st.nextId) && rid !in old(st.resumes)
      && st.resumes == old(st.resumes)[rid := NewResume(fid, file.value)]
      && st.folders == old(st.folders)[fid := old(st.folders)[fid].(totalFiles := old(st.folders)[fid].totalFiles + [rid])]
  {
    if !IsValidObjectId(folderId) {
      return BadRequest("Invalid folder id");
    }
    if file.None? {
      return BadRequest("No resume file uploaded");
    }
    var fid := folderId.id;
    if fid !in st.folders {
      return NotFound("No Folder Exist of id " + IdText(fid));
    }
    var rid := st.NewId();
    st.resumes := st.resumes[rid := NewResume(fid, file.value)];
    var folder := st.folders[fid];
    st.folders := st.folders[fid := folder.(totalFiles := folder.totalFiles + [rid])];
    resp := Ok(rid);
  }
}
