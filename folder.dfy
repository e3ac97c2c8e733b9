/**
 * Folder requests: create, rename, delete (with best-effort removal of the
 * uploaded files and removal of the folder's resumes), and list the
 * caller's folders.
 */
module Folders {
  import opened Wrappers
  import opened Text
  import opened Records
  import opened DocumentStore

  /** `title.trim()` on a missing or non-string title throws, which the handler answers with 500. */
  const InternalError := "Internal Server Error"

  /** `createFolder`: a folder titled as given (untrimmed), owned by the caller, with no files. */
  method CreateFolder(st: Store, caller: RawId, title: Option<string>) returns (resp: Response<Id>)
    requires st.Valid()
    modifies st`folders, st`nextId
    ensures st.Valid()
    ensures !caller.Oid? ==> resp == BadRequest("Invalid user id")
    ensures caller.Oid? && title.None? ==> resp == ServerError(InternalError)
    ensures caller.Oid? && title.Some? && Trim(title.value) == "" ==> resp == BadRequest("Please Provide a Title")
    ensures resp.Ok? <==> caller.Oid? && title.Some? && Trim(title.value) != ""
    ensures !resp.Ok? ==> st.folders == old(st.folders) && st.nextId == old(st.nextId)
    ensures resp.Ok? ==>
      && resp.value == old(st.nextId)
      && st.folders == old(st.folders)[resp.value := Folder(title.value, caller.id, [], [])]
  {
    if !caller.Oid? {
      return BadRequest("Invalid user id");
    }
    if title.None? {
      return ServerError(InternalError);
    }
    if Trim(title.value) == "" {
      return BadRequest("Please Provide a Title");
    }
    var id := st.NewId();
    st.folders := st.folders[id := Folder(title.value, caller.id, [], [])];
    resp := Ok(id);
  }

  /** `updateFolder`: renames any existing folder; the caller is not consulted. */
  method UpdateFolder(st: Store, folderId: RawId, title: Option<string>) returns (resp: Response<()>)
    requires st.Valid()
    modifies st`folders
    ensures st.Valid()
    ensures !folderId.Oid? ==> resp == BadRequest("Invalid folder id")
    ensures folderId.Oid? && title.None? ==> resp == ServerError(InternalError)
    ensures folderId.Oid? && title.Some? && Trim(title.value) == "" ==> resp == BadRequest("Please Provide a Title")
    ensures folderId.Oid? && title.Some? && Trim(title.value) != "" && folderId.id !in old(st.folders) ==>
      resp == NotFound("Folder Not Found")
    ensures resp.Ok? <==>
      folderId.Oid? && title.Some? && Trim(title.value) != "" && folderId.id in old(st.folders)
    ensures !resp.Ok? ==> st.folders == old(st.folders)
    ensures resp.Ok? ==>
      st.folders == old(st.folders)[folderId.id := old(st.folders)[folderId.id].(title := title.value)]
  {
    if !folderId.Oid? {
      return BadRequest("Invalid folder id");
    }
    if title.None? {
      return ServerError(InternalError);
    }
    if Trim(title.value) == "" {
      return BadRequest("Please Provide a Title");
    }
    var id := folderId.id;
    if id !in st.folders {
      return NotFound("Folder Not Found");
    }
    var folder := st.folders[id];
    RenameKeepsInvariants(st.resumes, st.folders, id, title.value);
    st.folders := st.folders[id := folder.(title := title.value)];
    resp := Ok(());
  }

  lemma RenameKeepsInvariants(resumes: map<Id, Resume>, folders: map<Id, Folder>, id: Id, title: string)
    requires id in folders && FoldersWellFormed(folders) && ResumesListed(resumes, folders)
    ensures FoldersWellFormed(folders[id := folders[id].(title := title)])
    ensures ResumesListed(resumes, folders[id := folders[id].(title := title)])
  {
  }

  /** `resume.cloudinary?.publicId` is present and not empty. */
  predicate HasPublicId(r: Resume) {
    r.cloudinary.Some? && r.cloudinary.value.publicId != ""
  }

  predicate InFolderWithFile(resumes: map<Id, Resume>, fid: Id, id: Id) {
    id in resumes && resumes[id].folderId == fid && HasPublicId(resumes[id])
  }

  predicate StrictlyIncreasing(s: seq<Id>) {
    forall i, j :: 0 <= i < j < |s| ==> s[i] < s[j]
  }

  /**
   * `deleteFolder`. The resumes of the folder are visited in id order; for
   * each with a public id the file deletion is attempted, and `destroyFails`
   * says which deletions throw: such failures are only logged. `attempted`
   * lists the resumes whose file deletion was attempted, `failed` those
   * whose deletion threw.
   */
  method DeleteFolder(st: Store, folderId: RawId, destroyFails: string -> bool)
    returns (resp: Response<()>, attempted: seq<Id>, failed: seq<Id>)
    requires st.Valid()
    modifies st`resumes, st`folders
    ensures st.Valid()
    ensures !folderId.Oid? ==> resp == BadRequest("Invalid folder id")
    ensures folderId.Oid? && folderId.id !in old(st.folders) ==> resp == NotFound("Folder not found")
    ensures resp.Ok? <==> folderId.Oid? && folderId.id in old(st.folders)
    ensures !resp.Ok? ==> st.resumes == old(st.resumes) && st.folders == old(st.folders) && attempted == []
    ensures resp.Ok? ==>
      var fid := folderId.id;
      && StrictlyIncreasing(attempted)
      && (forall id :: id in attempted <==> InFolderWithFile(old(st.resumes), fid, id))
      && (forall id :: id in failed <==> id in attempted && destroyFails(old(st.resumes)[id].cloudinary.value.publicId))
      && st.resumes == (map id | id in old(st.resumes) && old(st.resumes)[id].folderId != fid :: old(st.resumes)[id])
      && st.folders == old(st.folders) - {fid}
  {
    attempted, failed := [], [];
    if !folderId.Oid? {
      return BadRequest("Invalid folder id"), attempted, failed;
    }
    var fid := folderId.id;
    if fid !in st.folders {
      return NotFound("Folder not found"), attempted, failed;
    }
    var id := 0;
    while id < st.nextId
      invariant 0 <= id <= st.nextId
      invariant forall k :: 0 <= k < |attempted| ==> attempted[k] < id
      invariant StrictlyIncreasing(attempted)
      invariant forall x: Id :: x in attempted <==> x < id && InFolderWithFile(st.resumes, fid, x)
      invariant forall x: Id :: x in failed <==> x in attempted && destroyFails(st.resumes[x].cloudinary.value.publicId)
    {
      if id in st.resumes && st.resumes[id].folderId == fid {
        var resume := st.resumes[id];
        if HasPublicId(resume) {
          attempted := attempted + [id];
          if destroyFails(resume.cloudinary.value.publicId) {
            failed := failed + [id];
          }
        }
      }
      id := id + 1;
    }
    assert forall x :: x in st.resumes ==> x < st.nextId;
    st.resumes := map x | x in st.resumes && st.resumes[x].folderId != fid :: st.resumes[x];
    st.folders := st.folders - {fid};
    resp := Ok(());
  }

  /** `getFolder`: the folders owned by the caller (their resumes joined in are not modelled). */
  method GetFolder(st: Store, caller: RawId) returns (resp: Response<set<Id>>)
    ensures caller.Absent? ==> resp == BadRequest("Please Provide the token")
    ensures caller.Malformed? ==> resp == ServerError(InternalError)
    ensures resp.Ok? <==> caller.Oid?
    ensures resp.Ok? ==> forall fid :: fid in resp.value <==> fid in st.folders && st.folders[fid].user == caller.id
  {
    match caller
    case Absent => resp := BadRequest("Please Provide the token");
    case Malformed => resp := ServerError(InternalError);
    case Oid(user) => resp := Ok(set fid | fid in st.folders && st.folders[fid].user == user);
  }
}
