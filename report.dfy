/**
 * Report requests: the priority validator, and the handlers that create a
 * report (fanning out one applicant per processed resume of the folder),
 * list a job's reports and delete a report.
 */
module Reports {
  import opened Wrappers
  import opened Text
  import opened Collections
  import opened Records
  import opened DocumentStore

  /** One field of the request's priority object as JavaScript sees it. */
  datatype Value =
    | Missing       // undefined or null
    | NotANumber    // not of type number, or NaN
    | Num(n: int)

  datatype PriorityFields = PriorityFields(skills: Value, experience: Value, location: Value, qualifications: Value, projects: Value)

  /** `req.body.priority`: absent, `null`, or an object (whose missing keys read as undefined). */
  datatype PriorityInput = Undefined | Null | Given(fields: PriorityFields)

  datatype Field = Skills | Experience | Location | Qualifications | Projects

  /** `requiredFields`, in the order they are checked. */
  const FieldOrder: seq<Field> := [Skills, Experience, Location, Qualifications, Projects]

  function FieldName(f: Field): string {
    match f
    case Skills => "skills"
    case Experience => "experience"
    case Location => "location"
    case Qualifications => "qualifications"
    case Projects => "projects"
  }

  function ValueOf(p: PriorityFields, f: Field): Value {
    match f
    case Skills => p.skills
    case Experience => p.experience
    case Location => p.location
    case Qualifications => p.qualifications
    case Projects => p.projects
  }

  predicate FieldPasses(v: Value) {
    v.Num? && v.n >= 0
  }

  datatype PriorityError =
    | NoObject(isNull: bool)     // reading a field of undefined or null throws a TypeError
    | FieldMissing(field: Field)
    | FieldNotNumber(field: Field)
    | FieldNegative(field: Field)
    | BadTotal(total: nat)

  /** The message of the error `validatePriority` throws. */
  function Message(e: PriorityError): string {
    match e
    case NoObject(isNull) =>
      "Cannot read properties of " + (if isNull then "null" else "undefined") + " (reading 'skills')"
    case FieldMissing(f) => "Priority field '" + FieldName(f) + "' is required"
    case FieldNotNumber(f) => "Priority field '" + FieldName(f) + "' must be a valid number"
    case FieldNegative(f) => "Priority field '" + FieldName(f) + "' cannot be negative"
    case BadTotal(t) => "Priority total must be exactly 100. Received " + DecimalString(t)
  }

  /** The checks of one field, in order: present, a number, not negative. */
  function FieldFailure(f: Field, v: Value): (e: PriorityError)
    requires !FieldPasses(v)
    ensures e == FieldMissing(f) <==> v.Missing?
    ensures e == FieldNotNumber(f) <==> v.NotANumber?
    ensures e == FieldNegative(f) <==> v.Num? && v.n < 0
  {
    if v.Missing? then FieldMissing(f) else if v.NotANumber? then FieldNotNumber(f) else FieldNegative(f)
  }

  /** The loop over `fields`: the failure of the first field that fails, if any. */
  function FirstFailure(p: PriorityFields, fields: seq<Field>): (r: Option<PriorityError>)
    ensures r.Some? ==> r.value.FieldMissing? || r.value.FieldNotNumber? || r.value.FieldNegative?
    ensures r.None? <==> forall i :: 0 <= i < |fields| ==> FieldPasses(ValueOf(p, fields[i]))
  {
    if fields == [] then None
    else if !FieldPasses(ValueOf(p, fields[0])) then Some(FieldFailure(fields[0], ValueOf(p, fields[0])))
    else FirstFailure(p, fields[1..])
  }

  /** The failure reported is that of the first failing field; earlier fields all pass. */
  lemma {:induction false} FirstFailureIsFirst(p: PriorityFields, fields: seq<Field>, i: nat)
    requires i < |fields| && !FieldPasses(ValueOf(p, fields[i]))
    requires forall j :: 0 <= j < i ==> FieldPasses(ValueOf(p, fields[j]))
    ensures FirstFailure(p, fields) == Some(FieldFailure(fields[i], ValueOf(p, fields[i])))
  {
    if i > 0 {
      assert FieldPasses(ValueOf(p, fields[0]));
      FirstFailureIsFirst(p, fields[1..], i - 1);
    }
  }

  predicate AllFieldsPass(p: PriorityFields) {
    forall i :: 0 <= i < |FieldOrder| ==> FieldPasses(ValueOf(p, FieldOrder[i]))
  }

  function Total(p: PriorityFields): nat
    requires AllFieldsPass(p)
  {
    assert FieldPasses(ValueOf(p, FieldOrder[0])) && FieldPasses(ValueOf(p, FieldOrder[1]));
    assert FieldPasses(ValueOf(p, FieldOrder[2])) && FieldPasses(ValueOf(p, FieldOrder[3]));
    assert FieldPasses(ValueOf(p, FieldOrder[4]));
    p.skills.n + p.experience.n + p.location.n + p.qualifications.n + p.projects.n
  }

  /** `validatePriority`: `None` when it returns true, the thrown error otherwise. */
  function ValidatePriority(input: PriorityInput): (r: Option<PriorityError>)
    ensures r.None? <==> input.Given? && AllFieldsPass(input.fields) && Total(input.fields) == 100
    ensures input.Undefined? ==> r == Some(NoObject(false))
    ensures input.Null? ==> r == Some(NoObject(true))
    ensures r.Some? && r.value.BadTotal? ==>
      input.Given? && AllFieldsPass(input.fields) && r.value.total == Total(input.fields) != 100
  {
    match input
    case Undefined => Some(NoObject(false))
    case Null => Some(NoObject(true))
    case Given(p) =>
      var failure := FirstFailure(p, FieldOrder);
      if failure.Some? then failure
      else
        var total := Total(p);
        if total != 100 then Some(BadTotal(total)) else None
  }

  /**
   * The precedence of the checks: fields in the fixed order, and within the
   * first failing field missing before not-a-number before negative.
   */
  lemma ValidationPrecedence(p: PriorityFields, i: nat)
    requires i < |FieldOrder| && !FieldPasses(ValueOf(p, FieldOrder[i]))
    requires forall j :: 0 <= j < i ==> FieldPasses(ValueOf(p, FieldOrder[j]))
    ensures ValidatePriority(Given(p)) == Some(FieldFailure(FieldOrder[i], ValueOf(p, FieldOrder[i])))
  {
    FirstFailureIsFirst(p, FieldOrder, i);
  }

  /** The total's message carries the received total in decimal. */
  lemma BadTotalMessage(p: PriorityFields)
    requires AllFieldsPass(p) && Total(p) != 100
    ensures ValidatePriority(Given(p)) == Some(BadTotal(Total(p)))
    ensures Message(BadTotal(Total(p))) == "Priority total must be exactly 100. Received " + DecimalString(Total(p))
  {
  }

  /** Some report of `user` already exists for this job and folder. */
  predicate HasReportFor(reports: map<Id, Report>, job: Id, folder: Id, user: Id) {
    exists rid :: rid in reports && reports[rid].jobProfile == job && reports[rid].folder == folder && reports[rid].user == user
  }

  /** The applicant `createReport` inserts for one processed resume. */
  function PendingApplicant(resume: Id, job: Id, report: Id, caller: Id): Applicant {
    Applicant(resume, job, None, ApplicantStatus.Pending, None, [], None, report, caller)
  }

  /** The ids `first`, `first + 1`, ..., `first + n - 1`. */
  function IdRange(first: Id, n: nat): (ids: seq<Id>)
    ensures |ids| == n && forall i :: 0 <= i < n ==> ids[i] == first + i
  {
    seq(n, i requires 0 <= i < n => first + i)
  }

  /** Ids handed out from a counter that bounds a collection's keys are all new to it. */
  lemma IdRangeFresh<V>(m: map<Id, V>, first: Id, n: nat)
    requires KeysBelow(m, first)
    ensures forall i :: 0 <= i < n ==> IdRange(first, n)[i] !in m
  {
  }

  /** `applicants` after `insertMany` of one pending applicant per resume, with ids from `first` on. */
  function Fanout(applicants: map<Id, Applicant>, first: Id, resumes: seq<Id>, job: Id, report: Id, caller: Id)
    : (r: map<Id, Applicant>)
    ensures forall id :: id in r <==> id in applicants || first <= id < first + |resumes|
    decreases |resumes|
  {
    if resumes == [] then applicants
    else
      var n := |resumes| - 1;
      Fanout(applicants, first, resumes[..n], job, report, caller)[first + n := PendingApplicant(resumes[n], job, report, caller)]
  }

  /**
   * The fan-out adds exactly one applicant per resume, in order, at the
   * fresh ids, and keeps every existing applicant.
   */
  lemma {:induction false} FanoutExact(applicants: map<Id, Applicant>, first: Id, resumes: seq<Id>, job: Id, report: Id, caller: Id)
    requires KeysBelow(applicants, first)
    ensures var r := Fanout(applicants, first, resumes, job, report, caller);
      && (forall id :: id in r <==> id in applicants || first <= id < first + |resumes|)
      && (forall id :: id in applicants ==> r[id] == applicants[id])
      && (forall i :: 0 <= i < |resumes| ==> r[first + i] == PendingApplicant(resumes[i], job, report, caller))
    decreases |resumes|
  {
    if resumes != [] {
      var n := |resumes| - 1;
      var prev := Fanout(applicants, first, resumes[..n], job, report, caller);
      FanoutExact(applicants, first, resumes[..n], job, report, caller);
      var r := prev[first + n := PendingApplicant(resumes[n], job, report, caller)];
      assert Fanout(applicants, first, resumes, job, report, caller) == r;
      forall i | 0 <= i < n
        ensures r[first + i] == PendingApplicant(resumes[i], job, report, caller)
      {
        assert resumes[..n][i] == resumes[i];
      }
    }
  }

  /**
   * `createReport`. Writes are taken to succeed; the caller's id comes from
   * the authentication layer.
   */
  method CreateReport(st: Store, caller: RawId, jobId: RawId, folderId: RawId, priority: PriorityInput)
    returns (resp: Response<Id>)
    requires st.Valid()
    modifies st
    ensures st.Valid()
    ensures !caller.Oid? ==> resp == Unauthorized("Unauthorized")
    ensures caller.Oid? && !(jobId.Oid? && folderId.Oid?) ==> resp == BadRequest("Invalid job or folder id")
    ensures caller.Oid? && jobId.Oid? && folderId.Oid? && ValidatePriority(priority).Some? ==>
      resp == BadRequest(Message(ValidatePriority(priority).value))
    ensures caller.Oid? && jobId.Oid? && folderId.Oid? && ValidatePriority(priority).None? ==>
      var caller, job, folder := caller.id, jobId.id, folderId.id;
      && (job !in old(st.jobs) ==> resp == NotFound("Job not found"))
      && (job in old(st.jobs) && !(folder in old(st.folders) && old(st.folders)[folder].user == caller) ==>
            resp == Forbidden("Folder not found or access denied"))
      && ((job in old(st.jobs) && folder in old(st.folders) && old(st.folders)[folder].user == caller &&
           HasReportFor(old(st.reports), job, folder, caller)) ==>
            resp == Conflict("Report already exists for this job and folder"))
      && ((job in old(st.jobs) && folder in old(st.folders) && old(st.folders)[folder].user == caller &&
           !HasReportFor(old(st.reports), job, folder, caller)) ==> resp.Ok?)
    ensures !resp.Ok? ==> unchanged(st)
    ensures resp.Ok? ==>
      var caller, job, folder, rid := caller.id, jobId.id, folderId.id, resp.value;
      var processed := old(st.folders)[folder].processedFiles;
      && rid == old(st.nextId)
      && st.nextId == rid + 1 + |processed|
      && st.reports == old(st.reports)[rid := Report(folder, caller, job, None, None, ReportStatus.Pending,
                                                     IdRange(rid + 1, |processed|))]
      && st.jobs == old(st.jobs)[job := old(st.jobs)[job].(reports := old(st.jobs)[job].reports + [rid])]
      && st.applicants == Fanout(old(st.applicants), rid + 1, processed, job, rid, caller)
      && st.resumes == old(st.resumes) && st.folders == old(st.folders)
      && HasReportFor(st.reports, job, folder, caller)
  {
    if !IsValidObjectId(caller) {
      return Unauthorized("Unauthorized");
    }
    if !IsValidObjectId(jobId) || !IsValidObjectId(folderId) {
      return BadRequest("Invalid job or folder id");
    }
    var invalid := ValidatePriority(priority);
    if invalid.Some? {
      return BadRequest(Message(invalid.value));
    }
    var user, job, folder := caller.id, jobId.id, folderId.id;
    if job !in st.jobs {
      return NotFound("Job not found");
    }
    if !(folder in st.folders && st.folders[folder].user == user) {
      return Forbidden("Folder not found or access denied");
    }
    if HasReportFor(st.reports, job, folder, user) {
      return Conflict("Report already exists for this job and folder");
    }
    resp := SubmitReport(st, user, job, folder);
    var rid := resp.value;
    assert rid in st.reports && st.reports[rid].jobProfile == job && st.reports[rid].folder == folder && st.reports[rid].user == user;
  }

  /**
   * The writes of `createReport` once every check has passed: the PENDING
   * report, its id pushed onto the job, the applicants, and the report's
   * results.
   */
  method SubmitReport(st: Store, user: Id, job: Id, folder: Id) returns (resp: Response<Id>)
    requires st.Valid() && job in st.jobs && folder in st.folders
    modifies st
    ensures st.Valid()
    ensures resp.Ok?
    ensures var rid := resp.value;
      var processed := old(st.folders)[folder].processedFiles;
      && rid == old(st.nextId)
      && st.nextId == rid + 1 + |processed|
      && st.reports == old(st.reports)[rid := Report(folder, user, job, None, None, ReportStatus.Pending,
                                                     IdRange(rid + 1, |processed|))]
      && st.jobs == old(st.jobs)[job := old(st.jobs)[job].(reports := old(st.jobs)[job].reports + [rid])]
      && st.applicants == Fanout(old(st.applicants), rid + 1, processed, job, rid, user)
      && st.resumes == old(st.resumes) && st.folders == old(st.folders)
  {
    var rid := st.NewId();
    st.reports := st.reports[rid := Report(folder, user, job, None, None, ReportStatus.Pending, [])];
    st.jobs := st.jobs[job := st.jobs[job].(reports := st.jobs[job].reports + [rid])];
    var results := InsertApplicants(st, st.folders[folder].processedFiles, job, rid, user);
    st.reports := st.reports[rid := st.reports[rid].(results := results)];
    resp := Ok(rid);
  }

  /** `insertMany` of one pending applicant per processed resume, each under a fresh id. */
  method InsertApplicants(st: Store, processed: seq<Id>, job: Id, rid: Id, user: Id) returns (ids: seq<Id>)
    requires st.Valid()
    modifies st`applicants, st`nextId
    ensures st.Valid()
    ensures ids == IdRange(old(st.nextId), |processed|)
    ensures st.nextId == old(st.nextId) + |processed|
    ensures st.applicants == Fanout(old(st.applicants), old(st.nextId), processed, job, rid, user)
  {
    ids := [];
    var k := 0;
    while k < |processed|
      invariant 0 <= k <= |processed|
      invariant st.Valid()
      invariant st.nextId == old(st.nextId) + k
      invariant ids == IdRange(old(st.nextId), k)
      invariant st.applicants == Fanout(old(st.applicants), old(st.nextId), processed[..k], job, rid, user)
    {
      var aid := st.NewId();
      assert processed[..k + 1][..k] == processed[..k];
      st.applicants := st.applicants[aid := PendingApplicant(processed[k], job, rid, user)];
      ids := ids + [aid];
      k := k + 1;
    }
    assert processed[..k] == processed;
  }

  /**
   * `getReportsByJob`: only the job's creator may list its reports. The
   * joined folder and applicant documents and the newest-first order are
   * not modelled.
   */
  method GetReportsByJob(st: Store, caller: RawId, jobId: RawId) returns (resp: Response<set<Id>>)
    ensures !caller.Oid? ==> resp == Unauthorized("")
    ensures caller.Oid? && !jobId.Oid? ==> resp == BadRequest("Invalid job id")
    ensures caller.Oid? && jobId.Oid? && !(jobId.id in st.jobs && st.jobs[jobId.id].createdBy == caller.id) ==>
      resp == Forbidden("Access denied or job not found")
    ensures resp.Ok? <==> caller.Oid? && jobId.Oid? && jobId.id in st.jobs && st.jobs[jobId.id].createdBy == caller.id
    ensures resp.Ok? ==> forall rid :: rid in resp.value <==> rid in st.reports && st.reports[rid].jobProfile == jobId.id
  {
    if !IsValidObjectId(caller) {
      return Unauthorized("");
    }
    if !IsValidObjectId(jobId) {
      return BadRequest("Invalid job id");
    }
    if !(jobId.id in st.jobs && st.jobs[jobId.id].createdBy == caller.id) {
      return Forbidden("Access denied or job not found");
    }
    var job := jobId.id;
    resp := Ok(set rid | rid in st.reports && st.reports[rid].jobProfile == job);
  }

  /** `deleteReport`: the job's creator or the report's owner removes it, and its reference from the job. */
  method DeleteReport(st: Store, caller: RawId, reportId: RawId) returns (resp: Response<()>)
    requires st.Valid()
    modifies st`jobs, st`reports
    ensures st.Valid()
    ensures !caller.Oid? ==> resp == Unauthorized("Unauthorized")
    ensures caller.Oid? && !reportId.Oid? ==> resp == BadRequest("Invalid report id")
    ensures caller.Oid? && reportId.Oid? && reportId.id !in old(st.reports) ==> resp == NotFound("Report not found")
    ensures caller.Oid? && reportId.Oid? && reportId.id in old(st.reports) ==>
      var report := old(st.reports)[reportId.id];
      && (report.jobProfile !in old(st.jobs) ==> resp == NotFound("Associated job not found"))
      && (report.jobProfile in old(st.jobs) ==>
            (resp.Ok? <==> old(st.jobs)[report.jobProfile].createdBy == caller.id || report.user == caller.id))
      && (report.jobProfile in old(st.jobs) && !resp.Ok? ==>
            resp == Forbidden("You are not allowed to delete this report"))
    ensures !resp.Ok? ==> st.jobs == old(st.jobs) && st.reports == old(st.reports)
    ensures resp.Ok? ==>
      var rid := reportId.id;
      var job := old(st.reports)[rid].jobProfile;
      && st.reports == old(st.reports) - {rid}
      && st.jobs == old(st.jobs)[job := old(st.jobs)[job].(reports := RemoveAll(old(st.jobs)[job].reports, rid))]
  {
    if !IsValidObjectId(caller) {
      return Unauthorized("Unauthorized");
    }
    if !IsValidObjectId(reportId) {
      return BadRequest("Invalid report id");
    }
    var rid := reportId.id;
    if rid !in st.reports {
      return NotFound("Report not found");
    }
    var report := st.reports[rid];
    if report.jobProfile !in st.jobs {
      return NotFound("Associated job not found");
    }
    var job := st.jobs[report.jobProfile];
    var isJobOwner := job.createdBy == caller.id;
    var isReportOwner := report.user == caller.id;
    if !isJobOwner && !isReportOwner {
      return Forbidden("You are not allowed to delete this report");
    }
    st.jobs := st.jobs[report.jobProfile := job.(reports := RemoveAll(job.reports, rid))];
    st.reports := st.reports - {rid};
    resp := Ok(());
  }

  /** Deleting a report keeps the job's other report ids, in order, with their multiplicities. */
  lemma DeleteKeepsOtherReports(reports: seq<Id>, rid: Id, other: Id)
    requires other != rid
    ensures rid !in RemoveAll(reports, rid)
    ensures multiset(RemoveAll(reports, rid))[other] == multiset(reports)[other]
    ensures RemoveAll(reports + [other], rid) == RemoveAll(reports, rid) + [other]
  {
    RemoveAllConcat(reports, [other], rid);
    assert [other][1..] == [];
  }
}
