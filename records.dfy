/**
 * The documents of the backend's store (the mongoose models Resume, Folder,
 * Job, Report and Applicant), the identifiers that reference them, and the
 * outcome of a request handler.
 */
module Records {
  import opened Wrappers

  /** A MongoDB ObjectId. */
  type Id = nat

  /**
   * An id as a request carries it: missing (or the empty string), present
   * but rejected by the ObjectId format check, or a well-formed ObjectId.
   */
  datatype RawId = Absent | Malformed | Oid(id: Id)

  /** `id && isValidObjectId(id)`. */
  predicate IsValidObjectId(raw: RawId) {
    raw.Oid?
  }

  datatype Status = Pending | Processing | Done | Failed

  datatype Cloud = Cloud(url: string, publicId: string)

  /** The PDF parser's document information, kept as it is returned. */
  type Metadata = map<string, string>

  datatype Extracted = Extracted(text: string, links: seq<string>, metadata: Metadata)

  datatype Resume = Resume(
    folderId: Id,
    originalName: string,
    localPath: string,
    status: Status,
    retries: nat,
    maxRetries: nat,
    errorReason: Option<string>,
    cloudinary: Option<Cloud>,
    extracted: Option<Extracted>)

  datatype Folder = Folder(title: string, user: Id, totalFiles: seq<Id>, processedFiles: seq<Id>)

  datatype Job = Job(
    title: string,
    description: Option<string>,
    skillRequired: seq<string>,
    experienceRequired: Option<int>,
    location: string,
    vacancies: int,
    reports: seq<Id>,
    createdBy: Id)

  datatype Priority = Priority(skills: int, experience: int, location: int, qualifications: int, projects: int)

  datatype ReportStatus = Pending | Processing | Done | Failed

  datatype Report = Report(
    folder: Id,
    user: Id,
    jobProfile: Id,
    priority: Option<Priority>,
    priorityHash: Option<string>,
    status: ReportStatus,
    results: seq<Id>)

  datatype ApplicantStatus = Pending | Unverified | Processing | Verified | Failed

  /** A value of a platform's `stats` record. */
  datatype StatValue = Number(n: int) | Text(s: string) | Record(fields: map<string, int>)

  /** The enrichment result for one platform (`SocialProfile` in the source). */
  datatype SocialProfile = SocialProfile(
    platform: string,
    username: Option<string>,
    profileUrl: string,
    stats: Option<map<string, StatValue>>,
    error: Option<string>)

  datatype Applicant = Applicant(
    resume: Id,
    jobProfile: Id,
    name: Option<string>,
    status: ApplicantStatus,
    social: Option<map<string, string>>,
    authentication: seq<SocialProfile>,
    failureReason: Option<string>,
    createdFor: Id,
    createdBy: Id)

  /** What a request handler answers, by HTTP status family. */
  datatype Response<T> =
    | Ok(value: T)                  // 200 or 201
    | BadRequest(message: string)   // 400
    | Unauthorized(message: string) // 401
    | Forbidden(message: string)    // 403
    | NotFound(message: string)     // 404
    | Conflict(message: string)     // 409
    | ServerError(message: string)  // 500
}
