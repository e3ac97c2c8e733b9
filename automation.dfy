/**
 * The resume ingestion worker (`processPendingResumes`): claim one PENDING
 * resume atomically, extract its text and links, upload it, record the
 * result and mark the folder's file processed; on any error count a retry
 * and put the resume back to PENDING or give up with FAILED.
 *
 * The PDF parsers, the cloud upload and the individual database writes are
 * foreign: their outcomes for one attempt are the `Attempt` parameter.
 */
module Automation {
  import opened Wrappers
  import opened Collections
  import opened Records
  import opened DocumentStore
  import opened Extract

  /** What `extractTextAndMetadata` does for this file: it throws, or returns the parse. */
  datatype PdfTextOutcome = TextFailed(message: string) | TextRead(pdf: PdfText)

  /** What `extractHyperlinks` does for this file: it throws, or reads every page's annotations. */
  datatype PdfLinksOutcome = LinksFailed(message: string) | LinksRead(pages: seq<seq<Annotation>>)

  /** `uploadToCloudinary`'s result. */
  datatype UploadResult = Uploaded(url: string, publicId: string) | UploadFailed(error: string)

  /** One database write: it succeeds or it throws. */
  datatype Write = Written | WriteFailed(message: string)

  /** The foreign outcomes of one attempt, in the order the worker meets them. */
  datatype Attempt = Attempt(
    text: PdfTextOutcome,
    links: PdfLinksOutcome,
    upload: UploadResult,
    folderUpdate: Write,
    resumeSave: Write,
    errorSave: Write)

  /** One turn of the `while (true)` loop: the claim query throws, or it runs. */
  datatype Iteration = LockFails(message: string) | LockRuns(attempt: Attempt)

  datatype IterationResult =
    | NoWork                 // no PENDING resume: the loop breaks
    | ErrorBeforeClaim       // the claim query threw: the loop continues
    | Completed(id: Id)      // the claimed resume is DONE
    | AttemptFailed(id: Id)  // the claimed resume went through the error path

  predicate NoPending(resumes: map<Id, Resume>) {
    forall id :: id in resumes ==> resumes[id].status != Status.Pending
  }

  /** `findOneAndUpdate({status: "PENDING"}, {status: "PROCESSING"}, {new: true})` on the chosen document. */
  function Claimed(doc: Resume): Resume {
    doc.(status := Status.Processing)
  }

  /** `err.message || "Unknown error"`. */
  function ErrorReason(message: string): (reason: string)
    ensures reason != ""
    ensures message != "" ==> reason == message
    ensures message == "" ==> reason == "Unknown error"
  {
    if message == "" then "Unknown error" else message
  }

  /** The error path: one more retry, the reason, and PENDING again unless the retries are used up. */
  function AfterFailure(doc: Resume, message: string): (r: Resume)
    ensures r.folderId == doc.folderId
    ensures r.retries == doc.retries + 1
    ensures r.errorReason == Some(ErrorReason(message))
    ensures r.status == Status.Failed <==> r.retries >= r.maxRetries
    ensures r.status == Status.Pending <==> r.retries < r.maxRetries
    ensures r.(retries := doc.retries, errorReason := doc.errorReason, status := doc.status) == doc
  {
    var retries := doc.retries + 1;
    doc.(retries := retries,
         errorReason := Some(ErrorReason(message)),
         status := if retries >= doc.maxRetries then Status.Failed else Status.Pending)
  }

  /**
   * The document once extraction and upload have succeeded: the extracted
   * text and metadata, the union of both link lists without duplicates,
   * the uploaded file's location, and DONE.
   */
  function WithResults(doc: Resume, ex: TextExtraction, annotationLinks: seq<string>, upload: Cloud): (r: Resume)
    ensures r.folderId == doc.folderId
    ensures r.status == Status.Done
    ensures r.cloudinary == Some(upload)
    ensures r.extracted.Some? && r.extracted.value.text == ex.text && r.extracted.value.metadata == ex.metadata
    ensures r.extracted.value.links == Dedup(annotationLinks + ex.textLinks)
    ensures r.(status := doc.status, cloudinary := doc.cloudinary, extracted := doc.extracted) == doc
  {
    doc.(extracted := Some(Extracted(ex.text, Dedup(annotationLinks + ex.textLinks), ex.metadata)),
         cloudinary := Some(upload),
         status := Status.Done)
  }

  /**
   * What the `try` block leaves behind: the in-memory document, whether the
   * folder's `$addToSet` was issued, and the error it threw, if any.
   */
  datatype TryOutcome = TryOutcome(doc: Resume, addedToFolder: bool, error: Option<string>)

  /** The extraction and upload steps of the `try` block, up to the point where the results are in the document. */
  function Prepared(claimed: Resume, attempt: Attempt): TryOutcome {
    match attempt.text
    case TextFailed(m) => TryOutcome(claimed, false, Some(m))
    case TextRead(pdf) =>
      match attempt.links
      case LinksFailed(m) => TryOutcome(claimed, false, Some(m))
      case LinksRead(pages) =>
        match attempt.upload
        case UploadFailed(e) => TryOutcome(claimed, false, Some(e))
        case Uploaded(url, publicId) =>
          TryOutcome(WithResults(claimed, ExtractTextAndMetadata(pdf), Dedup(DocumentLinks(pages)), Cloud(url, publicId)), false, None)
  }

  /** The folder update and the save that follow a successful preparation, stopping at the first that throws. */
  function Writes(p: TryOutcome, folderUpdate: Write, resumeSave: Write): TryOutcome {
    if p.error.Some? then p
    else
      match folderUpdate
      case WriteFailed(m) => TryOutcome(p.doc, false, Some(m))
      case Written =>
        match resumeSave
        case WriteFailed(m) => TryOutcome(p.doc, true, Some(m))
        case Written => TryOutcome(p.doc, true, None)
  }

  /** The `try` block run on the claimed document: preparation, then the folder update, then the save. */
  function RunTry(claimed: Resume, attempt: Attempt): TryOutcome {
    Writes(Prepared(claimed, attempt), attempt.folderUpdate, attempt.resumeSave)
  }

  /**
   * The stored document at the end of the iteration: the DONE document if
   * its save succeeded; after an error the error path's document if that
   * save succeeded, and otherwise the claimed document as the claim left it.
   */
  function Persisted(claimed: Resume, out: TryOutcome, errorSave: Write): Resume {
    if out.error.None? then out.doc
    else if errorSave.Written? then AfterFailure(out.doc, out.error.value)
    else claimed
  }

  /** The upload is the last foreign step before the results are written into the document. */
  lemma UploadGuardsResults(claimed: Resume, attempt: Attempt)
    requires claimed.status == Status.Processing
    ensures attempt.upload.UploadFailed? && attempt.text.TextRead? && attempt.links.LinksRead? ==>
      RunTry(claimed, attempt) == TryOutcome(claimed, false, Some(attempt.upload.error))
    ensures RunTry(claimed, attempt).doc.status == Status.Done <==>
      attempt.text.TextRead? && attempt.links.LinksRead? && attempt.upload.Uploaded?
    ensures RunTry(claimed, attempt).doc.cloudinary != claimed.cloudinary ||
            RunTry(claimed, attempt).doc.extracted != claimed.extracted ==>
      attempt.upload.Uploaded?
    ensures Persisted(claimed, RunTry(claimed, attempt), attempt.errorSave).status == Status.Done <==>
      RunTry(claimed, attempt).error.None?
  {
    var out := RunTry(claimed, attempt);
    if out.error.Some? && attempt.errorSave.Written? {
      assert AfterFailure(out.doc, out.error.value).status != Status.Done;
    }
  }

  /** A successful attempt: DONE, the upload's location, and the duplicate-free union of the links. */
  lemma SuccessfulAttempt(claimed: Resume, attempt: Attempt)
    requires RunTry(claimed, attempt).error.None?
    ensures attempt.text.TextRead? && attempt.links.LinksRead? && attempt.upload.Uploaded?
    ensures attempt.folderUpdate.Written? && attempt.resumeSave.Written?
    ensures var doc := Persisted(claimed, RunTry(claimed, attempt), attempt.errorSave);
      && doc.status == Status.Done
      && doc.cloudinary == Some(Cloud(attempt.upload.url, attempt.upload.publicId))
      && doc.extracted.Some?
      && NoDup(doc.extracted.value.links)
      && forall l :: l in doc.extracted.value.links <==>
           l in Dedup(DocumentLinks(attempt.links.pages)) || l in ExtractTextAndMetadata(attempt.text.pdf).textLinks
    ensures RunTry(claimed, attempt).addedToFolder
  {
  }

  /**
   * A failed attempt whose error is saved: exactly one more retry, the
   * reason, and FAILED exactly when the retries are used up. When the
   * failure came after the folder update, the id stays in `processedFiles`.
   */
  lemma FailedAttempt(claimed: Resume, attempt: Attempt)
    requires RunTry(claimed, attempt).error.Some? && attempt.errorSave.Written?
    ensures var out := RunTry(claimed, attempt);
      var doc := Persisted(claimed, out, attempt.errorSave);
      && doc.retries == claimed.retries + 1
      && doc.maxRetries == claimed.maxRetries
      && doc.folderId == claimed.folderId
      && doc.errorReason == Some(ErrorReason(out.error.value))
      && (doc.status == Status.Failed <==> claimed.retries + 1 >= claimed.maxRetries)
      && (doc.status == Status.Pending <==> claimed.retries + 1 < claimed.maxRetries)
    ensures RunTry(claimed, attempt).addedToFolder <==>
      attempt.upload.Uploaded? && attempt.text.TextRead? && attempt.links.LinksRead? &&
      attempt.folderUpdate.Written? && attempt.resumeSave.WriteFailed?
  {
  }

  /** Claiming with `$addToSet` twice adds the id once. */
  lemma AddProcessedIdempotent(folders: map<Id, Folder>, fid: Id, id: Id)
    ensures AddProcessed(AddProcessed(folders, fid, id), fid, id) == AddProcessed(folders, fid, id)
  {
    if fid in folders {
      AddToSetIdempotent(folders[fid].processedFiles, id);
    }
  }

  /** A resume claimed and failed once per message, each error saved. */
  function FailedAttempts(doc: Resume, messages: seq<string>): Resume
    decreases |messages|
  {
    if messages == [] then doc
    else AfterFailure(Claimed(FailedAttempts(doc, messages[..|messages| - 1])), messages[|messages| - 1])
  }

  /** After `k` saved failures the resume has `k` more retries, and is FAILED exactly when they reach the limit. */
  lemma {:induction false} RepeatedFailures(doc: Resume, messages: seq<string>)
    ensures FailedAttempts(doc, messages).retries == doc.retries + |messages|
    ensures FailedAttempts(doc, messages).maxRetries == doc.maxRetries
    ensures messages != [] ==>
      && FailedAttempts(doc, messages).errorReason == Some(ErrorReason(messages[|messages| - 1]))
      && (FailedAttempts(doc, messages).status == Status.Failed <==> doc.retries + |messages| >= doc.maxRetries)
      && (FailedAttempts(doc, messages).status == Status.Pending <==> doc.retries + |messages| < doc.maxRetries)
    decreases |messages|
  {
    if messages != [] {
      RepeatedFailures(doc, messages[..|messages| - 1]);
    }
  }

  /**
   * Retries are bounded: a resume that keeps failing is put back to PENDING
   * after each of the first attempts and is FAILED after
   * `max(1, maxRetries - retries)` of them.
   */
  lemma GivesUpAfterMaxRetries(doc: Resume, messages: seq<string>)
    requires |messages| == if doc.retries < doc.maxRetries then doc.maxRetries - doc.retries else 1
    ensures FailedAttempts(doc, messages).status == Status.Failed
    ensures forall k :: 1 <= k < |messages| ==> FailedAttempts(doc, messages[..k]).status == Status.Pending
  {
    RepeatedFailures(doc, messages);
    forall k | 1 <= k < |messages| ensures FailedAttempts(doc, messages[..k]).status == Status.Pending {
      RepeatedFailures(doc, messages[..k]);
    }
  }

  /**
   * The atomic claim: pick some PENDING resume and mark it PROCESSING, or
   * report that there is none. Which one the database picks is not modelled.
   */
  method Claim(st: Store) returns (claimed: Option<Id>)
    requires st.Valid()
    modifies st`resumes
    ensures st.Valid()
    ensures claimed.None? ==> st.resumes == old(st.resumes) && NoPending(st.resumes)
    ensures claimed.Some? ==>
      && claimed.value in old(st.resumes)
      && old(st.resumes)[claimed.value].status == Status.Pending
      && st.resumes == old(st.resumes)[claimed.value := Claimed(old(st.resumes)[claimed.value])]
  {
    if exists id :: id in st.resumes && st.resumes[id].status == Status.Pending {
      var id :| id in st.resumes && st.resumes[id].status == Status.Pending;
      st.SaveResume(id, Claimed(st.resumes[id]));
      claimed := Some(id);
    } else {
      claimed := None;
    }
  }

  /**
   * Extraction and upload for the claimed document, stopping at the first
   * step that throws; on success the results are written into the document.
   */
  method Prepare(claimed: Resume, attempt: Attempt) returns (p: TryOutcome)
    ensures p == Prepared(claimed, attempt)
    ensures p.doc.folderId == claimed.folderId && !p.addedToFolder
    ensures p.error.None? ==> p.doc.status == Status.Done && p.doc.cloudinary.Some? && p.doc.extracted.Some?
    ensures p.error.Some? ==> p.doc == claimed
  {
    p := TryOutcome(claimed, false, None);
    match attempt.text {
      case TextFailed(m) => p := p.(error := Some(m));
      case TextRead(pdf) =>
        var ex := ExtractTextAndMetadata(pdf);
        match attempt.links {
          case LinksFailed(m) => p := p.(error := Some(m));
          case LinksRead(pages) =>
            var annotationLinks := ExtractHyperlinks(pages);
            match attempt.upload {
              case UploadFailed(e) => p := p.(error := Some(e));
              case Uploaded(url, publicId) =>
                p := p.(doc := WithResults(claimed, ex, annotationLinks, Cloud(url, publicId)));
            }
        }
    }
  }

  /**
   * The rest of the iteration once resume `id` is claimed: the `try` block
   * and, after an error, the `catch` block, whose own save failure is
   * swallowed.
   */
  method AttemptClaimed(st: Store, id: Id, attempt: Attempt) returns (completed: bool)
    requires st.Valid() && id in st.resumes
    modifies st`resumes, st`folders
    ensures st.Valid()
    ensures var claimed := old(st.resumes)[id];
      var out := RunTry(claimed, attempt);
      && st.resumes == old(st.resumes)[id := Persisted(claimed, out, attempt.errorSave)]
      && st.folders == (if out.addedToFolder then AddProcessed(old(st.folders), claimed.folderId, id) else old(st.folders))
      && (completed <==> out.error.None?)
  {
    ghost var claimed := st.resumes[id];
    var p := Prepare(st.resumes[id], attempt);
    var out := TryWrites(st, id, p, attempt.folderUpdate, attempt.resumeSave);
    assert out == RunTry(claimed, attempt);
    SaveError(st, id, out, attempt.errorSave);
    assert st.resumes == old(st.resumes)[id := Persisted(claimed, out, attempt.errorSave)];
    completed := out.error.None?;
  }

  /** The `catch` block: the error path's document is saved, and a failure of that save is swallowed. */
  method SaveError(st: Store, id: Id, out: TryOutcome, errorSave: Write)
    requires st.Valid() && id in st.resumes && out.doc.folderId == st.resumes[id].folderId
    modifies st`resumes
    ensures st.Valid()
    ensures st.resumes == if out.error.Some? && errorSave.Written?
      then old(st.resumes)[id := AfterFailure(out.doc, out.error.value)]
      else old(st.resumes)
  {
    if out.error.Some? && errorSave.Written? {
      st.SaveResume(id, AfterFailure(out.doc, out.error.value));
    }
  }

  /**
   * The folder update and the save of the `try` block, once the document is
   * prepared; each may throw, and nothing after a throw runs.
   */
  method TryWrites(st: Store, id: Id, p: TryOutcome, folderUpdate: Write, resumeSave: Write) returns (out: TryOutcome)
    requires st.Valid() && id in st.resumes
    requires p.doc.folderId == st.resumes[id].folderId && !p.addedToFolder
    modifies st`resumes, st`folders
    ensures st.Valid()
    ensures out == Writes(p, folderUpdate, resumeSave)
    ensures out.doc == p.doc
    ensures st.resumes == (if out.error.None? then old(st.resumes)[id := out.doc] else old(st.resumes))
    ensures st.folders == (if out.addedToFolder then AddProcessed(old(st.folders), p.doc.folderId, id) else old(st.folders))
  {
    out := p;
    if p.error.Some? {
      return;
    }
    match folderUpdate {
      case WriteFailed(m) =>
        out := TryOutcome(p.doc, false, Some(m));
      case Written =>
        AddProcessedPreserves(st.resumes, st.folders, p.doc.folderId, id);
        st.folders := AddProcessed(st.folders, p.doc.folderId, id);
        match resumeSave {
          case WriteFailed(m) =>
            out := TryOutcome(p.doc, true, Some(m));
          case Written =>
            st.SaveResume(id, p.doc);
            out := TryOutcome(p.doc, true, None);
        }
    }
  }

  /**
   * What one turn of the worker loop does to the resumes and folders
   * (`r0`, `f0` before, `r1`, `f1` after), given the turn's foreign
   * outcomes `step` and its result `res`.
   */
  ghost predicate IterStep(r0: map<Id, Resume>, f0: map<Id, Folder>, r1: map<Id, Resume>, f1: map<Id, Folder>,
                           step: Iteration, res: IterationResult)
  {
    && (res.ErrorBeforeClaim? <==> step.LockFails?)
    && (res.NoWork? <==> step.LockRuns? && NoPending(r0))
    && (res.NoWork? || res.ErrorBeforeClaim? ==> r1 == r0 && f1 == f0)
    && (res.Completed? || res.AttemptFailed? ==>
          && step.LockRuns?
          && res.id in r0
          && r0[res.id].status == Status.Pending
          && var claimed := Claimed(r0[res.id]);
             var out := RunTry(claimed, step.attempt);
             && r1 == r0[res.id := Persisted(claimed, out, step.attempt.errorSave)]
             && f1 == (if out.addedToFolder then AddProcessed(f0, claimed.folderId, res.id) else f0)
             && (res.Completed? <==> out.error.None?))
  }

  /** One turn of the worker loop. */
  method WorkerIteration(st: Store, step: Iteration) returns (r: IterationResult)
    requires st.Valid()
    modifies st`resumes, st`folders
    ensures st.Valid()
    ensures IterStep(old(st.resumes), old(st.folders), st.resumes, st.folders, step, r)
    ensures step.LockFails? ==> r == ErrorBeforeClaim
    ensures r.ErrorBeforeClaim? <==> step.LockFails?
    ensures r.NoWork? <==> step.LockRuns? && NoPending(old(st.resumes))
    ensures r.NoWork? || r.ErrorBeforeClaim? ==>
      st.resumes == old(st.resumes) && st.folders == old(st.folders)
    ensures r.NoWork? ==> NoPending(st.resumes)
    ensures r.Completed? || r.AttemptFailed? ==>
      && step.LockRuns?
      && r.id in old(st.resumes)
      && old(st.resumes)[r.id].status == Status.Pending
      && var claimed := Claimed(old(st.resumes)[r.id]);
         var out := RunTry(claimed, step.attempt);
         && st.resumes == old(st.resumes)[r.id := Persisted(claimed, out, step.attempt.errorSave)]
         && st.folders == (if out.addedToFolder then AddProcessed(old(st.folders), claimed.folderId, r.id) else old(st.folders))
         && (r.Completed? <==> out.error.None?)
  {
    if step.LockFails? {
      return ErrorBeforeClaim;
    }
    var claimedId := Claim(st);
    if claimedId.None? {
      return NoWork;
    }
    var id := claimedId.value;
    ghost var before := st.resumes;
    var completed := AttemptClaimed(st, id, step.attempt);
    ghost var claimed := Claimed(old(st.resumes)[id]);
    assert before[id] == claimed;
    assert st.resumes == old(st.resumes)[id := Persisted(claimed, RunTry(claimed, step.attempt), step.attempt.errorSave)];
    r := if completed then Completed(id) else AttemptFailed(id);
  }

  /** Adding a listed resume to its folder's processed files keeps the store's folder invariants. */
  lemma AddProcessedPreserves(resumes: map<Id, Resume>, folders: map<Id, Folder>, fid: Id, id: Id)
    requires FoldersWellFormed(folders) && ResumesListed(resumes, folders)
    requires id in resumes && resumes[id].folderId == fid
    ensures FoldersWellFormed(AddProcessed(folders, fid, id))
    ensures ResumesListed(resumes, AddProcessed(folders, fid, id))
  {
    var r := AddProcessed(folders, fid, id);
    forall rid | rid in resumes && resumes[rid].folderId in r
      ensures rid in r[resumes[rid].folderId].totalFiles
    {
      assert r[resumes[rid].folderId].totalFiles == folders[resumes[rid].folderId].totalFiles;
    }
  }

  predicate Settled(s: Status) {
    s == Status.Done || s == Status.Failed
  }

  /**
   * `processPendingResumes`: run worker iterations, one per element of
   * `steps`, until an iteration finds no PENDING resume. The loop of the
   * source runs until then; `steps` supplies as many iterations as the
   * environment grants.
   */
  method ProcessPendingResumes(st: Store, steps: seq<Iteration>)
    returns (results: seq<IterationResult>, ghost trace: seq<(map<Id, Resume>, map<Id, Folder>)>)
    requires st.Valid()
    modifies st`resumes, st`folders
    ensures st.Valid()
    ensures |results| <= |steps|
    ensures |trace| == |results| + 1
    ensures trace[0] == (old(st.resumes), old(st.folders))
    ensures trace[|results|] == (st.resumes, st.folders)
    ensures Traced(trace, steps, results)
    ensures forall k :: 0 <= k < |results| - 1 ==> !results[k].NoWork?
    ensures |results| < |steps| ==> results != [] && results[|results| - 1].NoWork?
    ensures results != [] && results[|results| - 1].NoWork? ==> NoPending(st.resumes)
    ensures forall k :: 0 <= k < |results| ==> (results[k].ErrorBeforeClaim? <==> steps[k].LockFails?)
    ensures |steps| > 0 && steps[0].LockRuns? && !NoPending(old(st.resumes)) ==>
      results != [] && (results[0].Completed? || results[0].AttemptFailed?)
    ensures st.resumes.Keys == old(st.resumes).Keys
    ensures forall id :: id in old(st.resumes) && Settled(old(st.resumes)[id].status) ==>
      st.resumes[id] == old(st.resumes)[id]
  {
    results := [];
    trace := [(st.resumes, st.folders)];
    var i := 0;
    while i < |steps|
      invariant 0 <= i <= |steps| && |results| == i && |trace| == i + 1
      invariant st.Valid()
      invariant trace[0] == (old(st.resumes), old(st.folders))
      invariant trace[i] == (st.resumes, st.folders)
      invariant Traced(trace, steps, results)
      invariant forall k :: 0 <= k < |results| ==> !results[k].NoWork?
      invariant st.resumes.Keys == old(st.resumes).Keys
      invariant forall id :: id in old(st.resumes) && Settled(old(st.resumes)[id].status) ==>
        st.resumes[id] == old(st.resumes)[id]
    {
      var r := WorkerIteration(st, steps[i]);
      TraceSnoc(trace, steps, results, st.resumes, st.folders, r);
      results := results + [r];
      trace := trace + [(st.resumes, st.folders)];
      if r.NoWork? {
        TraceResults(trace, steps, results);
        return;
      }
      i := i + 1;
    }
    TraceResults(trace, steps, results);
  }

  /**
   * `trace` records the states of a run whose turns had the foreign
   * outcomes `steps` and the results `results`: each consecutive pair of
   * states is the turn `IterStep` describes.
   */
  ghost predicate Traced(trace: seq<(map<Id, Resume>, map<Id, Folder>)>, steps: seq<Iteration>, results: seq<IterationResult>) {
    && |results| <= |steps| && |trace| == |results| + 1
    && forall k :: 0 <= k < |results| ==>
         IterStep(trace[k].0, trace[k].1, trace[k + 1].0, trace[k + 1].1, steps[k], results[k])
  }

  /** A traced run extended by one more turn is still traced. */
  lemma TraceSnoc(trace: seq<(map<Id, Resume>, map<Id, Folder>)>, steps: seq<Iteration>, results: seq<IterationResult>,
                  r1: map<Id, Resume>, f1: map<Id, Folder>, res: IterationResult)
    requires Traced(trace, steps, results) && |results| < |steps|
    requires IterStep(trace[|results|].0, trace[|results|].1, r1, f1, steps[|results|], res)
    ensures Traced(trace + [(r1, f1)], steps, results + [res])
  {
  }

  /** What each result of a traced run says about its step, read off `IterStep`. */
  lemma TraceResults(trace: seq<(map<Id, Resume>, map<Id, Folder>)>, steps: seq<Iteration>, results: seq<IterationResult>)
    requires Traced(trace, steps, results)
    ensures forall k :: 0 <= k < |results| ==> (results[k].ErrorBeforeClaim? <==> steps[k].LockFails?)
    ensures results != [] && steps[0].LockRuns? && !NoPending(trace[0].0) ==>
      results[0].Completed? || results[0].AttemptFailed?
  {
    forall k | 0 <= k < |results|
      ensures results[k].ErrorBeforeClaim? <==> steps[k].LockFails?
    {
      assert IterStep(trace[k].0, trace[k].1, trace[k + 1].0, trace[k + 1].1, steps[k], results[k]);
    }
    if results != [] {
      assert IterStep(trace[0].0, trace[0].1, trace[1].0, trace[1].1, steps[0], results[0]);
    }
  }
}
