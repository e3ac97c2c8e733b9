/**
 * The document store: one map per collection, and the allocator of fresh
 * ObjectIds. Every handler and the ingestion worker change it in place.
 */
module DocumentStore {
  import opened Records
  import opened Collections

  predicate KeysBelow<V>(m: map<Id, V>, bound: Id) {
    forall id :: id in m ==> id < bound
  }

  /**
   * A folder's processed files are some of its files, each listed once
   * (`processedFiles ⊆ totalFiles`, appended with set semantics).
   */
  predicate FolderWellFormed(f: Folder) {
    && NoDup(f.processedFiles)
    && forall x :: x in f.processedFiles ==> x in f.totalFiles
  }

  predicate FoldersWellFormed(folders: map<Id, Folder>) {
    forall fid :: fid in folders ==> FolderWellFormed(folders[fid])
  }

  /** Every resume whose folder exists is listed in that folder's `totalFiles`. */
  predicate ResumesListed(resumes: map<Id, Resume>, folders: map<Id, Folder>) {
    forall rid :: rid in resumes && resumes[rid].folderId in folders ==>
      rid in folders[resumes[rid].folderId].totalFiles
  }

  /** The `$addToSet: {processedFiles: id}` update of folder `fid`, a no-op when it does not exist. */
  function AddProcessed(folders: map<Id, Folder>, fid: Id, id: Id): (r: map<Id, Folder>)
    ensures r.Keys == folders.Keys
    ensures forall f :: f in folders && f != fid ==> r[f] == folders[f]
    ensures fid in folders ==>
      r[fid] == folders[fid].(processedFiles := r[fid].processedFiles)
      && id in r[fid].processedFiles
      && forall x :: x in r[fid].processedFiles <==> x in folders[fid].processedFiles || x == id
    ensures FoldersWellFormed(folders) && (fid in folders ==> id in folders[fid].totalFiles) ==>
      FoldersWellFormed(r)
  {
    if fid in folders then
      folders[fid := folders[fid].(processedFiles := AddToSet(folders[fid].processedFiles, id))]
    else
      folders
  }

  /** Every resume's folder id was handed out. */
  predicate FolderIdsBelow(resumes: map<Id, Resume>, bound: Id) {
    forall rid :: rid in resumes ==> resumes[rid].folderId < bound
  }

  /** The invariants of the store's state, stated on its collections. */
  ghost predicate Invariants(resumes: map<Id, Resume>, folders: map<Id, Folder>, jobs: map<Id, Job>,
                             reports: map<Id, Report>, applicants: map<Id, Applicant>, nextId: Id)
  {
    && KeysBelow(resumes, nextId)
    && KeysBelow(folders, nextId)
    && KeysBelow(jobs, nextId)
    && KeysBelow(reports, nextId)
    && KeysBelow(applicants, nextId)
    && FolderIdsBelow(resumes, nextId)
    && FoldersWellFormed(folders)
    && ResumesListed(resumes, folders)
  }

  /** Replacing a stored resume by a document in the same folder keeps the invariants. */
  lemma ReplaceResume(resumes: map<Id, Resume>, folders: map<Id, Folder>, jobs: map<Id, Job>,
                      reports: map<Id, Report>, applicants: map<Id, Applicant>, nextId: Id, id: Id, doc: Resume)
    requires id in resumes && doc.folderId == resumes[id].folderId
    requires Invariants(resumes, folders, jobs, reports, applicants, nextId)
    ensures Invariants(resumes[id := doc], folders, jobs, reports, applicants, nextId)
  {
  }

  class Store {
    var resumes: map<Id, Resume>
    var folders: map<Id, Folder>
    var jobs: map<Id, Job>
    var reports: map<Id, Report>
    var applicants: map<Id, Applicant>
    /** Every id handed out so far is below this one. */
    var nextId: Id

    ghost predicate Valid()
      reads this
    {
      Invariants(resumes, folders, jobs, reports, applicants, nextId)
    }

    constructor ()
      ensures Valid()
      ensures resumes == map[] && folders == map[] && jobs == map[]
      ensures reports == map[] && applicants == map[]
    {
      resumes, folders, jobs, reports, applicants := map[], map[], map[], map[], map[];
      nextId := 0;
    }

    /** `resume.save()` on a stored resume that stays in its folder. */
    method SaveResume(id: Id, doc: Resume)
      requires Valid() && id in resumes && doc.folderId == resumes[id].folderId
      modifies this`resumes
      ensures Valid()
      ensures resumes == old(resumes)[id := doc]
    {
      ReplaceResume(resumes, folders, jobs, reports, applicants, nextId, id, doc);
      resumes := resumes[id := doc];
    }

    /** A new ObjectId, distinct from every stored document's. */
    method NewId() returns (id: Id)
      requires Valid()
      modifies this`nextId
      ensures Valid()
      ensures id == old(nextId) && nextId == id + 1
      ensures id !in resumes && id !in folders && id !in jobs
      ensures id !in reports && id !in applicants
    {
      id := nextId;
      nextId := nextId + 1;
    }
  }
}
