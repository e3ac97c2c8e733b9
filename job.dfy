/**
 * Job requests: create, update (a field-by-field overwrite from the request
 * body), delete (with the job's reports) and list the caller's jobs.
 */
module Jobs {
  import opened Wrappers
  import opened Records
  import opened DocumentStore

  /** The body of a create request; `None` is an absent key. */
  datatype JobInput = JobInput(
    title: Option<string>,
    description: Option<string>,
    skillRequired: Option<seq<string>>,
    experienceRequired: Option<int>,
    location: Option<string>,
    vacancies: Option<int>)

  /** JavaScript falsiness of an optional string or number. */
  predicate FalsyText(v: Option<string>) { v.None? || v.value == "" }
  predicate FalsyNumber(v: Option<int>) { v.None? || v.value == 0 }

  /** `createJob`: a job owned by the caller, with no reports yet. */
  method CreateJob(st: Store, caller: RawId, input: JobInput) returns (resp: Response<Id>)
    requires st.Valid()
    modifies st`jobs, st`nextId
    ensures st.Valid()
    ensures !caller.Oid? ==> resp == Unauthorized("Unauthorized")
    ensures caller.Oid? && (FalsyText(input.title) || FalsyText(input.location) || FalsyNumber(input.vacancies)) ==>
      resp == BadRequest("Missing required fields")
    ensures resp.Ok? <==>
      caller.Oid? && !FalsyText(input.title) && !FalsyText(input.location) && !FalsyNumber(input.vacancies)
    ensures !resp.Ok? ==> st.jobs == old(st.jobs) && st.nextId == old(st.nextId)
    ensures resp.Ok? ==>
      && resp.value == old(st.nextId)
      && st.jobs == old(st.jobs)[resp.value := Job(input.title.value, input.description, input.skillRequired.GetOr([]),
                                                   input.experienceRequired, input.location.value, input.vacancies.value,
                                                   [], caller.id)]
  {
    if !IsValidObjectId(caller) {
      return Unauthorized("Unauthorized");
    }
    if FalsyText(input.title) || FalsyText(input.location) || FalsyNumber(input.vacancies) {
      return BadRequest("Missing required fields");
    }
    var id := st.NewId();
    st.jobs := st.jobs[id := Job(input.title.value, input.description, input.skillRequired.GetOr([]),
                                 input.experienceRequired, input.location.value, input.vacancies.value,
                                 [], caller.id)];
    resp := Ok(id);
  }

  /** The body of an update request: the keys present are copied onto the job. */
  datatype JobPatch = JobPatch(
    title: Option<string>,
    description: Option<string>,
    skillRequired: Option<seq<string>>,
    experienceRequired: Option<int>,
    location: Option<string>,
    vacancies: Option<int>,
    reports: Option<seq<Id>>,
    createdBy: Option<Id>)

  function Over<T>(patch: Option<T>, current: T): T {
    if patch.Some? then patch.value else current
  }

  /** Every key present in the body already holds that value on the job. */
  predicate Agrees(job: Job, patch: JobPatch) {
    && (patch.title.Some? ==> patch.title.value == job.title)
    && (patch.description.Some? ==> patch.description == job.description)
    && (patch.skillRequired.Some? ==> patch.skillRequired.value == job.skillRequired)
    && (patch.experienceRequired.Some? ==> patch.experienceRequired == job.experienceRequired)
    && (patch.location.Some? ==> patch.location.value == job.location)
    && (patch.vacancies.Some? ==> patch.vacancies.value == job.vacancies)
    && (patch.reports.Some? ==> patch.reports.value == job.reports)
    && (patch.createdBy.Some? ==> patch.createdBy.value == job.createdBy)
  }

  /**
   * `Object.assign(job, req.body)`: afterwards the job holds every key of the
   * body, and the job is unchanged exactly when it held them all already.
   */
  function ApplyPatch(job: Job, patch: JobPatch): (r: Job)
    ensures Agrees(r, patch)
    ensures r == job <==> Agrees(job, patch)
  {
    Job(Over(patch.title, job.title),
        if patch.description.Some? then patch.description else job.description,
        Over(patch.skillRequired, job.skillRequired),
        if patch.experienceRequired.Some? then patch.experienceRequired else job.experienceRequired,
        Over(patch.location, job.location),
        Over(patch.vacancies, job.vacancies),
        Over(patch.reports, job.reports),
        Over(patch.createdBy, job.createdBy))
  }

  /** Two bodies assigned one after the other: the later key wins. */
  function Merge(first: JobPatch, second: JobPatch): (m: JobPatch)
    ensures first == EmptyPatch ==> m == second
    ensures second == EmptyPatch ==> m == first
  {
    JobPatch(
      if second.title.Some? then second.title else first.title,
      if second.description.Some? then second.description else first.description,
      if second.skillRequired.Some? then second.skillRequired else first.skillRequired,
      if second.experienceRequired.Some? then second.experienceRequired else first.experienceRequired,
      if second.location.Some? then second.location else first.location,
      if second.vacancies.Some? then second.vacancies else first.vacancies,
      if second.reports.Some? then second.reports else first.reports,
      if second.createdBy.Some? then second.createdBy else first.createdBy)
  }

  const EmptyPatch := JobPatch(None, None, None, None, None, None, None, None)

  /**
   * The patch overwrites every field it carries and keeps every other one;
   * an empty body changes nothing.
   */
  lemma PatchOverwritesPresentFields(job: Job, patch: JobPatch)
    ensures var r := ApplyPatch(job, patch);
      && (patch.title.Some? ==> r.title == patch.title.value) && (patch.title.None? ==> r.title == job.title)
      && (patch.description.Some? ==> r.description == patch.description) && (patch.description.None? ==> r.description == job.description)
      && (patch.skillRequired.Some? ==> r.skillRequired == patch.skillRequired.value) && (patch.skillRequired.None? ==> r.skillRequired == job.skillRequired)
      && (patch.experienceRequired.Some? ==> r.experienceRequired == patch.experienceRequired)
      && (patch.experienceRequired.None? ==> r.experienceRequired == job.experienceRequired)
      && (patch.location.Some? ==> r.location == patch.location.value) && (patch.location.None? ==> r.location == job.location)
      && (patch.vacancies.Some? ==> r.vacancies == patch.vacancies.value) && (patch.vacancies.None? ==> r.vacancies == job.vacancies)
      && (patch.reports.Some? ==> r.reports == patch.reports.value) && (patch.reports.None? ==> r.reports == job.reports)
      && (patch.createdBy.Some? ==> r.createdBy == patch.createdBy.value) && (patch.createdBy.None? ==> r.createdBy == job.createdBy)
    ensures ApplyPatch(job, EmptyPatch) == job
  {
  }

  /** Assigning the same body twice is assigning it once; two bodies in a row are their merge. */
  lemma PatchComposition(job: Job, first: JobPatch, second: JobPatch)
    ensures ApplyPatch(ApplyPatch(job, first), first) == ApplyPatch(job, first)
    ensures ApplyPatch(ApplyPatch(job, first), second) == ApplyPatch(job, Merge(first, second))
  {
  }

  /** The job exists and was created by the caller (`findOne({_id, createdBy})`). */
  predicate OwnedBy(jobs: map<Id, Job>, job: Id, user: Id) {
    job in jobs && jobs[job].createdBy == user
  }

  /** `updateJob`: only the creator may update; the body may even reassign `createdBy`. */
  method UpdateJob(st: Store, caller: RawId, jobId: RawId, patch: JobPatch) returns (resp: Response<()>)
    requires st.Valid()
    modifies st`jobs
    ensures st.Valid()
    ensures !caller.Oid? ==> resp == Unauthorized("")
    ensures caller.Oid? && !jobId.Oid? ==> resp == BadRequest("Invalid job id")
    ensures caller.Oid? && jobId.Oid? && !OwnedBy(old(st.jobs), jobId.id, caller.id) ==>
      resp == Forbidden("Job not found or access denied")
    ensures resp.Ok? <==> caller.Oid? && jobId.Oid? && OwnedBy(old(st.jobs), jobId.id, caller.id)
    ensures !resp.Ok? ==> st.jobs == old(st.jobs)
    ensures resp.Ok? ==> st.jobs == old(st.jobs)[jobId.id := ApplyPatch(old(st.jobs)[jobId.id], patch)]
  {
    if !IsValidObjectId(caller) {
      return Unauthorized("");
    }
    if !IsValidObjectId(jobId) {
      return BadRequest("Invalid job id");
    }
    if !OwnedBy(st.jobs, jobId.id, caller.id) {
      return Forbidden("Job not found or access denied");
    }
    st.jobs := st.jobs[jobId.id := ApplyPatch(st.jobs[jobId.id], patch)];
    resp := Ok(());
  }

  /**
   * `deleteJob`: only the creator may delete. When the job lists any
   * report, every report of the job is deleted; applicants are kept.
   */
  method DeleteJob(st: Store, caller: RawId, jobId: RawId) returns (resp: Response<()>)
    requires st.Valid()
    modifies st`jobs, st`reports
    ensures st.Valid()
    ensures !caller.Oid? ==> resp == Unauthorized("")
    ensures caller.Oid? && !jobId.Oid? ==> resp == BadRequest("Invalid job id")
    ensures caller.Oid? && jobId.Oid? && !OwnedBy(old(st.jobs), jobId.id, caller.id) ==>
      resp == Forbidden("Job not found or access denied")
    ensures resp.Ok? <==> caller.Oid? && jobId.Oid? && OwnedBy(old(st.jobs), jobId.id, caller.id)
    ensures !resp.Ok? ==> st.jobs == old(st.jobs) && st.reports == old(st.reports)
    ensures resp.Ok? ==>
      var job := jobId.id;
      && st.jobs == old(st.jobs) - {job}
      && (old(st.jobs)[job].reports != [] ==>
            st.reports == (map rid | rid in old(st.reports) && old(st.reports)[rid].jobProfile != job :: old(st.reports)[rid]))
      && (old(st.jobs)[job].reports == [] ==> st.reports == old(st.reports))
  {
    if !IsValidObjectId(caller) {
      return Unauthorized("");
    }
    if !IsValidObjectId(jobId) {
      return BadRequest("Invalid job id");
    }
    var job := jobId.id;
    if !OwnedBy(st.jobs, job, caller.id) {
      return Forbidden("Job not found or access denied");
    }
    if |st.jobs[job].reports| > 0 {
      st.reports := map rid | rid in st.reports && st.reports[rid].jobProfile != job :: st.reports[rid];
    }
    st.jobs := st.jobs - {job};
    resp := Ok(());
  }

  /** `getUserJobs`: the jobs the caller created (the joined reports and the order are not modelled). */
  method GetUserJobs(st: Store, caller: RawId) returns (resp: Response<set<Id>>)
    ensures !caller.Oid? ==> resp == Unauthorized("")
    ensures resp.Ok? <==> caller.Oid?
    ensures resp.Ok? ==> forall j :: j in resp.value <==> OwnedBy(st.jobs, j, caller.id)
  {
    if !IsValidObjectId(caller) {
      return Unauthorized("");
    }
    var user := caller.id;
    resp := Ok(set j | j in st.jobs && st.jobs[j].createdBy == user);
  }
}
