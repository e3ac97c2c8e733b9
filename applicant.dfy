/**
 * Applicant requests: the verification decision taken from the social
 * enrichment results, and the project analysis that pairs a Safe Browsing
 * lookup with the SEO analysis of the project's URL.
 */
module Applicants {
  import opened Wrappers
  import opened Records
  import opened DocumentStore
  import Social
  import Seo

  // ---------------------------------------------------------------- verification

  /** `!r.error`: the error is absent or the empty string. */
  predicate NoError(r: SocialProfile) {
    r.error.None? || r.error.value == ""
  }

  /** `r.stats && Object.keys(r.stats).length > 0`. */
  predicate HasStats(r: SocialProfile) {
    r.stats.Some? && |r.stats.value| > 0
  }

  predicate ValidProfile(r: SocialProfile) {
    NoError(r) && HasStats(r)
  }

  /** `results.some(r => !r.error && r.stats && Object.keys(r.stats).length > 0)`. */
  function HasValidProfile(results: seq<SocialProfile>): (b: bool)
    ensures b <==> exists i :: 0 <= i < |results| && ValidProfile(results[i])
  {
    if results == [] then false
    else
      var prefix := results[..|results| - 1];
      assert forall i :: 0 <= i < |prefix| ==> prefix[i] == results[i];
      HasValidProfile(prefix) || ValidProfile(results[|results| - 1])
  }

  const NoSocialLinks := "No social links provided"
  const NotAuthenticated := "Unable to authenticate social profiles"

  /**
   * The applicant after the enrichment: the results are stored as returned,
   * the status is VERIFIED exactly when some result is valid, and a failed
   * verification records why while a successful one keeps the old reason.
   */
  function Decide(a: Applicant, results: seq<SocialProfile>): (r: Applicant)
    ensures r.authentication == results
    ensures r.status == Verified <==> HasValidProfile(results)
    ensures r.status != Verified ==> r.status == ApplicantStatus.Failed && r.failureReason == Some(NotAuthenticated)
    ensures r.status == Verified ==> r.failureReason == a.failureReason
    ensures r == a.(status := r.status, failureReason := r.failureReason, authentication := results)
  {
    if HasValidProfile(results) then
      a.(authentication := results, status := Verified)
    else
      a.(authentication := results, status := ApplicantStatus.Failed, failureReason := Some(NotAuthenticated))
  }

  /** `findOne({_id: id, createdBy: userId})`. */
  predicate Visible(applicants: map<Id, Applicant>, id: Id, user: Id) {
    id in applicants && applicants[id].createdBy == user
  }

  /** `applicant.social` is missing or has no keys. */
  predicate NoSocial(a: Applicant) {
    a.social.None? || |a.social.value| == 0
  }

  /** The message of the error a malformed id raises inside the query. */
  const CastFailure := "Cast to ObjectId failed"

  /**
   * `verifyApplicantById`. `settle` gives the settled outcome of each
   * platform fetch, as in `Social.FetchAllSocialProfiles`.
   */
  method VerifyApplicant(st: Store, id: RawId, caller: RawId, settle: (string, string) -> Social.Settled)
    returns (resp: Response<Applicant>)
    requires st.Valid()
    modifies st`applicants
    ensures st.Valid()
    ensures id.Absent? ==> resp == BadRequest("Applicant ID is required")
    ensures !id.Absent? && caller.Absent? ==> resp == Unauthorized("UNAUTHORIZED")
    ensures !id.Absent? && !caller.Absent? && (id.Malformed? || caller.Malformed?) ==> resp == ServerError(CastFailure)
    ensures id.Oid? && caller.Oid? && !Visible(old(st.applicants), id.id, caller.id) ==>
      resp == NotFound("Applicant not found")
    ensures id.Oid? && caller.Oid? && Visible(old(st.applicants), id.id, caller.id) && NoSocial(old(st.applicants)[id.id]) ==>
      && resp == BadRequest(NoSocialLinks)
      && st.applicants == old(st.applicants)[id.id := old(st.applicants)[id.id].(status := ApplicantStatus.Failed, failureReason := Some(NoSocialLinks))]
    ensures resp.Ok? <==>
      id.Oid? && caller.Oid? && Visible(old(st.applicants), id.id, caller.id) && !NoSocial(old(st.applicants)[id.id])
    ensures resp.Ok? ==>
      var a := old(st.applicants)[id.id];
      && resp.value == Decide(a, Social.AllProfiles(a.social.value, settle))
      && st.applicants == old(st.applicants)[id.id := resp.value]
    ensures !resp.Ok? && !resp.BadRequest? ==> st.applicants == old(st.applicants)
    ensures resp.BadRequest? && id.Absent? ==> st.applicants == old(st.applicants)
  {
    if id.Absent? {
      return BadRequest("Applicant ID is required");
    }
    if caller.Absent? {
      return Unauthorized("UNAUTHORIZED");
    }
    if id.Malformed? || caller.Malformed? {
      return ServerError(CastFailure);
    }
    var aid, user := id.id, caller.id;
    if !Visible(st.applicants, aid, user) {
      return NotFound("Applicant not found");
    }
    var applicant := st.applicants[aid];
    if NoSocial(applicant) {
      st.applicants := st.applicants[aid := applicant.(status := ApplicantStatus.Failed, failureReason := Some(NoSocialLinks))];
      return BadRequest(NoSocialLinks);
    }
    var results := Social.FetchAllSocialProfiles(applicant.social.value, settle);
    var decided := Decide(applicant, results);
    st.applicants := st.applicants[aid := decided];
    resp := Ok(decided);
  }

  /** A rejected fetch always carries an error, so it never verifies anyone. */
  lemma RejectedNeverValid(s: Social.Settled)
    requires s.Rejected?
    ensures !ValidProfile(Social.SettledEntry(s))
  {
  }

  /**
   * The LinkedIn entry is an error entry, so an applicant whose only
   * supplied link is LinkedIn, or whose fetches all fail, is never verified.
   */
  lemma {:induction false} VerifiedNeedsFetchedProfile(social: map<string, string>, settle: (string, string) -> Social.Settled)
    requires forall p :: p in Social.FetchedPlatforms && Social.Supplied(social, p) ==> settle(p, social[p]).Rejected?
    ensures !HasValidProfile(Social.AllProfiles(social, settle))
  {
    var results := Social.AllProfiles(social, settle);
    var tasks := Social.Tasks(social, Social.FetchedPlatforms);
    var head := Social.LinkedInEntry(social);
    forall i | 0 <= i < |results|
      ensures !ValidProfile(results[i])
    {
      if i < |head| {
        assert results[i] == Social.FetchLinkedIn(social["linkedin"]);
      } else {
        var t := tasks[i - |head|];
        assert results[i] == Social.SettledEntry(settle(t, social[t]));
        RejectedNeverValid(settle(t, social[t]));
      }
    }
  }

  // ---------------------------------------------------------------- project analysis

  /** What the Safe Browsing lookup answered: the request failed, or this many threat matches. */
  datatype Lookup = LookupFailed | Matches(count: nat)

  /**
   * `checkUrlSafeBrowsing`: true when the URL is safe, that is when there is
   * no match; a failed lookup is taken as safe (fail-open).
   */
  function CheckUrlSafeBrowsing(l: Lookup): (safe: bool)
    ensures safe <==> l.LookupFailed? || l.count == 0
  {
    match l
    case LookupFailed => true
    case Matches(count) => !(count > 0)
  }

  datatype ProjectReport = ProjectReport(isSafe: bool, threat: bool, seo: Seo.SeoReport)

  /** `isSafe: !threat` as written: the negation of a result that already means "safe". */
  function IsSafeAsWritten(threat: bool): bool {
    !threat
  }

  /** The documented meaning of the checker's result (threat.ts:14-17) as a predicate: no match was found, or the lookup failed open. */
  predicate IsSafe(l: Lookup) {
    l.LookupFailed? || l.count == 0
  }

  /** As written, a URL without any match is reported unsafe and one with matches safe. */
  lemma SafetyInverted(l: Lookup)
    ensures IsSafeAsWritten(CheckUrlSafeBrowsing(l)) <==> !IsSafe(l)
    ensures !IsSafeAsWritten(CheckUrlSafeBrowsing(Matches(0)))
    ensures IsSafeAsWritten(CheckUrlSafeBrowsing(Matches(1)))
  {
  }

  /** Passing the checker's result through, as `isSafe: threat`, gives the intended verdict. */
  lemma SafetyIntended(l: Lookup)
    ensures CheckUrlSafeBrowsing(l) == IsSafe(l)
  {
  }

  const InternalError := "Internal Server Error"

  /**
   * `projectAnalysis` as written. `lookup` answers the Safe Browsing
   * request for the URL as given; the SEO analysis normalises it itself,
   * and its failure is answered with 500.
   */
  method ProjectAnalysis(url: Option<string>, lookup: string -> Lookup, base: string -> Option<string>,
                         fetch: string -> Option<Seo.Page>, resolve: string -> Option<string>)
    returns (resp: Response<ProjectReport>)
    ensures url.None? || url.value == "" ==> resp == BadRequest("Please Provide URL of Project")
    ensures url.Some? && url.value != "" ==>
      var u := Seo.NormalizeUrl(url.value);
      (base(u).None? || fetch(u).None? <==> resp == ServerError(InternalError))
    ensures resp.Ok? ==>
      && url.Some?
      && resp.value.threat == CheckUrlSafeBrowsing(lookup(url.value))
      && resp.value.isSafe == IsSafeAsWritten(resp.value.threat)
      && resp.value.isSafe == !IsSafe(lookup(url.value))
      && var u := Seo.NormalizeUrl(url.value);
         && resp.value.seo.url == u
         && resp.value.seo.basic == Seo.ExtractBasic(fetch(u).value)
         && resp.value.seo.score == Seo.Percentage(Seo.CappedScore(Seo.PageAnalyses(fetch(u).value, resolve, base(u).value)))
  {
    if url.None? || url.value == "" {
      return BadRequest("Please Provide URL of Project");
    }
    var threat := CheckUrlSafeBrowsing(lookup(url.value));
    var seo := Seo.AnalyzeSEO(url.value, base, fetch, resolve);
    if seo.AnalysisFailed? {
      return ServerError(InternalError);
    }
    SafetyInverted(lookup(url.value));
    resp := Ok(ProjectReport(IsSafeAsWritten(threat), threat, seo.report));
  }

  /** `projectAnalysis` with `isSafe` set to the checker's own verdict. */
  method ProjectAnalysisIntended(url: Option<string>, lookup: string -> Lookup, base: string -> Option<string>,
                                 fetch: string -> Option<Seo.Page>, resolve: string -> Option<string>)
    returns (resp: Response<ProjectReport>)
    ensures url.None? || url.value == "" ==> resp == BadRequest("Please Provide URL of Project")
    ensures url.Some? && url.value != "" ==>
      var u := Seo.NormalizeUrl(url.value);
      (base(u).None? || fetch(u).None? <==> resp == ServerError(InternalError))
    ensures resp.Ok? ==>
      && url.Some?
      && resp.value.threat == CheckUrlSafeBrowsing(lookup(url.value))
      && resp.value.isSafe == IsSafe(lookup(url.value))
      && var u := Seo.NormalizeUrl(url.value);
         && resp.value.seo.url == u
         && resp.value.seo.basic == Seo.ExtractBasic(fetch(u).value)
         && resp.value.seo.score == Seo.Percentage(Seo.CappedScore(Seo.PageAnalyses(fetch(u).value, resolve, base(u).value)))
  {
    if url.None? || url.value == "" {
      return BadRequest("Please Provide URL of Project");
    }
    var threat := CheckUrlSafeBrowsing(lookup(url.value));
    var seo := Seo.AnalyzeSEO(url.value, base, fetch, resolve);
    if seo.AnalysisFailed? {
      return ServerError(InternalError);
    }
    SafetyIntended(lookup(url.value));
    resp := Ok(ProjectReport(threat, threat, seo.report));
  }
}
