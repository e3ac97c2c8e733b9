/**
 * The SEO analysis of a project URL: URL normalisation, the basic tags of
 * the page, heading texts, the image alt tally, internal and external link
 * classification, the mobile viewport check and the capped integer score.
 *
 * Fetching and parsing the page are foreign: a page is given as the values
 * the selectors return, URL parsing as its outcome, and the resolution of a
 * link against the page URL as an oracle.
 */
module Seo {
  import opened Wrappers
  import opened Text

  // ------------------------------------------------------------------ URLs

  predicate HasScheme(url: string) {
    StartsWith(url, "http://") || StartsWith(url, "https://")
  }

  /** The reassignment at the start of `analyzeSEO`: a URL without a scheme gets `https://`. */
  function NormalizeUrl(url: string): (r: string)
    ensures HasScheme(r)
    ensures |r| >= |url| && r[|r| - |url|..] == url
    ensures HasScheme(url) <==> r == url
  {
    if !StartsWith(url, "http://") && !StartsWith(url, "https://") then
      var r := "https://" + url;
      assert r[..|"https://"|] == "https://";
      r
    else url
  }

  lemma NormalizeIdempotent(url: string)
    ensures NormalizeUrl(NormalizeUrl(url)) == NormalizeUrl(url)
  {
  }

  // ----------------------------------------------------------- basic tags

  /** What the selectors of a fetched page return; `None` is a missing element or attribute. */
  datatype Page = Page(
    titleText: string,
    description: Option<string>,
    keywords: Option<string>,
    canonical: Option<string>,
    robots: Option<string>,
    viewport: Option<string>,
    charset: Option<string>,
    contentType: Option<string>,
    h1: seq<string>,
    h2: seq<string>,
    h3: seq<string>,
    imageAlts: seq<Option<string>>,
    hrefs: seq<Option<string>>,
    jsonLdScripts: nat,
    itemscopes: nat)

  datatype Basic = Basic(
    title: string,
    description: string,
    keywords: string,
    canonical: string,
    robots: string,
    viewport: string,
    charset: string)

  const NotFound := "Not found"

  /** `value || fallback` on an attribute. */
  function OrElse(value: Option<string>, fallback: string): (r: string)
    ensures value.Some? && value.value != "" ==> r == value.value
    ensures value.None? || value.value == "" ==> r == fallback
    ensures fallback != "" ==> r != ""
  {
    if value.Some? && value.value != "" then value.value else fallback
  }

  function ExtractBasic(page: Page): (b: Basic)
    ensures b.title == if Trim(page.titleText) == "" then NotFound else Trim(page.titleText)
    ensures b.viewport == OrElse(page.viewport, NotFound)
    ensures b.charset == OrElse(page.charset, OrElse(page.contentType, NotFound))
    ensures b.title != "" && b.description != "" && b.keywords != "" && b.canonical != ""
    ensures b.robots != "" && b.viewport != "" && b.charset != ""
  {
    Basic(
      if Trim(page.titleText) != "" then Trim(page.titleText) else NotFound,
      OrElse(page.description, NotFound),
      OrElse(page.keywords, NotFound),
      OrElse(page.canonical, NotFound),
      OrElse(page.robots, NotFound),
      OrElse(page.viewport, NotFound),
      OrElse(page.charset, OrElse(page.contentType, NotFound)))
  }

  /** The texts of `extractTexts`: each element's text trimmed, the empty ones dropped. */
  function NonBlankTexts(texts: seq<string>): (r: seq<string>)
    ensures forall i :: 0 <= i < |r| ==> r[i] != "" && !IsJsWhitespace(r[i][0])
    ensures |r| <= |texts|
    decreases |texts|
  {
    if texts == [] then []
    else
      var t := Trim(texts[|texts| - 1]);
      NonBlankTexts(texts[..|texts| - 1]) + (if t != "" then [t] else [])
  }

  lemma NonBlankStep(texts: seq<string>, i: nat)
    requires i < |texts|
    ensures NonBlankTexts(texts[..i + 1]) ==
      NonBlankTexts(texts[..i]) + (if Trim(texts[i]) != "" then [Trim(texts[i])] else [])
  {
    assert texts[..i + 1][..i] == texts[..i];
  }

  method ExtractTexts(texts: seq<string>) returns (kept: seq<string>)
    ensures kept == NonBlankTexts(texts)
  {
    kept := [];
    var i := 0;
    while i < |texts|
      invariant 0 <= i <= |texts|
      invariant kept == NonBlankTexts(texts[..i])
    {
      NonBlankStep(texts, i);
      var text := Trim(texts[i]);
      if text != "" {
        kept := kept + [text];
      }
      i := i + 1;
    }
    assert texts[..i] == texts;
  }

  // --------------------------------------------------------------- images

  datatype ImageTally = ImageTally(total: nat, withoutAlt: nat, withAlt: nat)

  /** `alt` is truthy: present and not empty. */
  predicate HasAlt(alt: Option<string>) {
    alt.Some? && alt.value != ""
  }

  function CountWithAlt(alts: seq<Option<string>>): (n: nat)
    ensures n <= |alts|
    decreases |alts|
  {
    if alts == [] then 0
    else CountWithAlt(alts[..|alts| - 1]) + (if HasAlt(alts[|alts| - 1]) then 1 else 0)
  }

  /** `analyzeImages`: one tick per image, with or without alt. */
  method AnalyzeImages(alts: seq<Option<string>>) returns (tally: ImageTally)
    ensures tally.total == tally.withAlt + tally.withoutAlt == |alts|
    ensures tally.withAlt == CountWithAlt(alts)
  {
    var withoutAlt, withAlt := 0, 0;
    var i := 0;
    while i < |alts|
      invariant 0 <= i <= |alts|
      invariant withAlt == CountWithAlt(alts[..i]) && withAlt + withoutAlt == i
    {
      assert alts[..i + 1][..i] == alts[..i];
      if alts[i].Some? && alts[i].value != "" {
        withAlt := withAlt + 1;
      } else {
        withoutAlt := withoutAlt + 1;
      }
      i := i + 1;
    }
    assert alts[..i] == alts;
    tally := ImageTally(withoutAlt + withAlt, withoutAlt, withAlt);
  }

  /** Every image has a truthy alt exactly when the tally counts them all; an empty alt counts as missing. */
  lemma {:induction false} AllAltIff(alts: seq<Option<string>>)
    ensures CountWithAlt(alts) == |alts| <==> forall i :: 0 <= i < |alts| ==> HasAlt(alts[i])
    decreases |alts|
  {
    if alts != [] {
      var init := alts[..|alts| - 1];
      AllAltIff(init);
      if HasAlt(alts[|alts| - 1]) {
        assert forall i :: 0 <= i < |init| ==> init[i] == alts[i];
      }
    }
  }

  lemma EmptyAltIsMissing(alts: seq<Option<string>>)
    ensures CountWithAlt(alts + [Some("")]) == CountWithAlt(alts)
    ensures CountWithAlt(alts + [None]) == CountWithAlt(alts)
  {
    assert (alts + [Some("")])[..|alts|] == alts;
    assert (alts + [None])[..|alts|] == alts;
  }

  // ---------------------------------------------------------------- links

  datatype LinkCounts = LinkCounts(internal: nat, external: nat)

  /** `!href || href.startsWith('#')` skips the link. */
  predicate Followed(href: Option<string>) {
    href.Some? && href.value != "" && !StartsWith(href.value, "#")
  }

  /**
   * The absolute URLs of the followed links; `resolve` is `new URL(href, url).href`,
   * absent when the constructor throws.
   */
  function AbsoluteLinks(hrefs: seq<Option<string>>, resolve: string -> Option<string>): set<string>
    decreases |hrefs|
  {
    if hrefs == [] then {}
    else
      var h := hrefs[|hrefs| - 1];
      AbsoluteLinks(hrefs[..|hrefs| - 1], resolve) +
        (if Followed(h) && resolve(h.value).Some? then {resolve(h.value).value} else {})
  }

  /** The sets `internalLinks` and `externalLinks` as the loop builds them. */
  function Classified(hrefs: seq<Option<string>>, resolve: string -> Option<string>, baseUrl: string)
    : (sets: (set<string>, set<string>))
    ensures forall u :: u in sets.0 ==> StartsWith(u, baseUrl)
    ensures forall u :: u in sets.1 ==> !StartsWith(u, baseUrl)
    decreases |hrefs|
  {
    if hrefs == [] then ({}, {})
    else
      var (internal, external) := Classified(hrefs[..|hrefs| - 1], resolve, baseUrl);
      var h := hrefs[|hrefs| - 1];
      if Followed(h) && resolve(h.value).Some? then
        var u := resolve(h.value).value;
        if StartsWith(u, baseUrl) then (internal + {u}, external) else (internal, external + {u})
      else (internal, external)
  }

  /** `analyzeLinks`: the number of distinct internal and of distinct external URLs. */
  method AnalyzeLinks(hrefs: seq<Option<string>>, resolve: string -> Option<string>, baseUrl: string)
    returns (counts: LinkCounts)
    ensures counts.internal == |Classified(hrefs, resolve, baseUrl).0|
    ensures counts.external == |Classified(hrefs, resolve, baseUrl).1|
  {
    var internalLinks: set<string> := {};
    var externalLinks: set<string> := {};
    var i := 0;
    while i < |hrefs|
      invariant 0 <= i <= |hrefs|
      invariant (internalLinks, externalLinks) == Classified(hrefs[..i], resolve, baseUrl)
    {
      assert hrefs[..i + 1][..i] == hrefs[..i];
      var href := hrefs[i];
      if href.Some? && href.value != "" && !StartsWith(href.value, "#") {
        var absolute := resolve(href.value);
        if absolute.Some? {
          if StartsWith(absolute.value, baseUrl) {
            internalLinks := internalLinks + {absolute.value};
          } else {
            externalLinks := externalLinks + {absolute.value};
          }
        }
      }
      i := i + 1;
    }
    assert hrefs[..i] == hrefs;
    counts := LinkCounts(|internalLinks|, |externalLinks|);
  }

  /**
   * Internal links are exactly the absolute URLs that start with the base,
   * external ones exactly the others, so every followed URL is counted once.
   */
  lemma {:induction false} LinkClassification(hrefs: seq<Option<string>>, resolve: string -> Option<string>, baseUrl: string)
    ensures var (internal, external) := Classified(hrefs, resolve, baseUrl);
      && (forall u :: u in internal <==> u in AbsoluteLinks(hrefs, resolve) && StartsWith(u, baseUrl))
      && (forall u :: u in external <==> u in AbsoluteLinks(hrefs, resolve) && !StartsWith(u, baseUrl))
      && internal * external == {}
      && internal + external == AbsoluteLinks(hrefs, resolve)
      && |internal| + |external| == |AbsoluteLinks(hrefs, resolve)|
    decreases |hrefs|
  {
    if hrefs != [] {
      LinkClassification(hrefs[..|hrefs| - 1], resolve, baseUrl);
    }
  }

  /** `checkMobileFriendly`: the viewport content mentions `width=`. */
  function CheckMobileFriendly(viewport: Option<string>): (r: bool)
    ensures r <==> viewport.Some? && exists k :: OccursAt(viewport.value, "width=", k)
  {
    var content := OrElse(viewport, "");
    ContainsIff(content, "width=");
    Contains(content, "width=")
  }

  // ---------------------------------------------------------------- score

  datatype StructuredData = StructuredData(hasJsonLd: bool, hasMicrodata: bool)

  /** `calculateScore` checks ten criteria. */
  const CriteriaCount := 10

  const ScoreCap := 65

  /** The points of the `i`-th criterion, in the order of `calculateScore`. */
  function Weight(i: nat): nat {
    match i
    case 0 => 10
    case 1 => 10
    case 2 => 10
    case 3 => 15
    case 4 => 10
    case 5 => 5
    case 6 => 5
    case 7 => 10
    case 8 => 10
    case _ => 5
  }

  /** Title points need a length strictly between 10 and 60. */
  predicate TitleEarns(title: string) {
    10 < |title| < 60
  }

  /** Whether the `i`-th criterion of `calculateScore` holds. */
  predicate Holds(i: nat, basic: Basic, h1: seq<string>, images: ImageTally, structured: StructuredData,
                  mobileFriendly: bool, links: LinkCounts)
  {
    match i
    case 0 => TitleEarns(basic.title)
    case 1 => basic.description != NotFound
    case 2 => |h1| == 1
    case 3 => images.total > 0 && images.withAlt == images.total
    case 4 => basic.viewport != NotFound
    case 5 => links.internal > 0
    case 6 => links.external > 0
    case 7 => mobileFriendly
    case 8 => structured.hasJsonLd
    case _ => structured.hasMicrodata
  }

  /** Which criteria hold, in the order of `calculateScore`. */
  function Criteria(basic: Basic, h1: seq<string>, images: ImageTally, structured: StructuredData,
                    mobileFriendly: bool, links: LinkCounts): (met: seq<bool>)
    ensures |met| == CriteriaCount
  {
    seq(CriteriaCount, (i: int) requires 0 <= i => Holds(i, basic, h1, images, structured, mobileFriendly, links))
  }

  /** The points a criterion earns: `if (holds) score += points`. */
  function PointsIf(holds: bool, points: nat): nat {
    if holds then points else 0
  }

  /** The points of the criteria that hold. */
  function Earned(met: seq<bool>): nat
    requires |met| == CriteriaCount
  {
    PointsIf(met[0], Weight(0)) + PointsIf(met[1], Weight(1)) + PointsIf(met[2], Weight(2)) +
    PointsIf(met[3], Weight(3)) + PointsIf(met[4], Weight(4)) + PointsIf(met[5], Weight(5)) +
    PointsIf(met[6], Weight(6)) + PointsIf(met[7], Weight(7)) + PointsIf(met[8], Weight(8)) +
    PointsIf(met[9], Weight(9))
  }

  function Min(a: int, b: int): int {
    if a < b then a else b
  }

  /** `calculateScore`: the points of the criteria that hold, capped at 65. */
  method CalculateScore(basic: Basic, h1: seq<string>, images: ImageTally, structured: StructuredData,
                        mobileFriendly: bool, links: LinkCounts) returns (score: int)
    ensures score == Min(Earned(Criteria(basic, h1, images, structured, mobileFriendly, links)), ScoreCap)
    ensures 0 <= score <= ScoreCap
  {
    var met := Criteria(basic, h1, images, structured, mobileFriendly, links);
    score := Tally(met);
  }

  /** The `score +=` steps of `calculateScore`, one per criterion. */
  method Tally(met: seq<bool>) returns (score: int)
    requires |met| == CriteriaCount
    ensures score == Min(Earned(met), ScoreCap)
    ensures 0 <= score <= ScoreCap
  {
    score := 0;
    score := score + PointsIf(met[0], 10);
    score := score + PointsIf(met[1], 10);
    score := score + PointsIf(met[2], 10);
    score := score + PointsIf(met[3], 15);
    score := score + PointsIf(met[4], 10);
    score := score + PointsIf(met[5], 5);
    score := score + PointsIf(met[6], 5);
    score := score + PointsIf(met[7], 10);
    score := score + PointsIf(met[8], 10);
    score := score + PointsIf(met[9], 5);
    score := Min(score, ScoreCap);
  }

  /** The uncapped score is at most 90, reached when every criterion holds, so the cap of 65 binds. */
  lemma RawScoreBounds(met: seq<bool>)
    requires |met| == CriteriaCount
    ensures Earned(met) <= 90
    ensures (forall j :: 0 <= j < |met| ==> met[j]) ==> Earned(met) == 90
    ensures (forall j :: 0 <= j < |met| ==> !met[j]) ==> Earned(met) == 0
  {
  }

  /** The points criterion `k` contributes. */
  function Term(met: seq<bool>, k: nat): nat
    requires k < |met|
  {
    PointsIf(met[k], Weight(k))
  }

  /** `Earned` as the sum of the ten terms. */
  lemma EarnedTerms(met: seq<bool>)
    requires |met| == CriteriaCount
    ensures Earned(met) == Term(met, 0) + Term(met, 1) + Term(met, 2) + Term(met, 3) + Term(met, 4) +
                           Term(met, 5) + Term(met, 6) + Term(met, 7) + Term(met, 8) + Term(met, 9)
  {
  }

  /** Meeting more criteria never lowers the points. */
  lemma EarnedMonotone(met: seq<bool>, more: seq<bool>)
    requires |met| == |more| == CriteriaCount
    requires forall j :: 0 <= j < |met| ==> met[j] ==> more[j]
    ensures Earned(met) <= Earned(more)
  {
    EarnedTerms(met);
    EarnedTerms(more);
    forall k | 0 <= k < CriteriaCount
      ensures Term(met, k) <= Term(more, k)
    {
      if met[k] {
        assert more[k];
      }
    }
  }

  /** Each criterion adds its fixed points whatever the others do. */
  lemma CriterionIndependent(met: seq<bool>, j: nat)
    requires |met| == CriteriaCount && j < |met|
    ensures Earned(met[j := true]) == Earned(met[j := false]) + Weight(j)
  {
    var yes, no := met[j := true], met[j := false];
    EarnedTerms(yes);
    EarnedTerms(no);
    forall k | 0 <= k < CriteriaCount
      ensures Term(yes, k) == Term(no, k) + (if k == j then Weight(j) else 0)
    {
      if k != j {
        assert yes[k] == no[k];
      }
    }
  }

  /** The "Not found" placeholder is 9 characters long, so a page without a title never earns title points. */
  lemma TitlePoints(page: Page)
    ensures TitleEarns(ExtractBasic(page).title) <==> 10 < |Trim(page.titleText)| < 60
  {
  }

  /** `Math.floor((raw / 65) * 100)` on the reachable scores, as integer division. */
  function Percentage(raw: int): (p: int)
    requires 0 <= raw <= ScoreCap
    ensures 0 <= p <= 100
    ensures p == 100 <==> raw == ScoreCap
    ensures p == 0 <==> raw == 0
  {
    raw * 100 / ScoreCap
  }

  /** Every weight is a multiple of 5, so every capped score is one too. */
  lemma CappedScoreStep(met: seq<bool>)
    requires |met| == CriteriaCount
    ensures Min(Earned(met), ScoreCap) % 5 == 0
  {
    EarnedInUnits(met);
    CapKeepsStep(Earned(met), TotalUnits(met));
  }

  /** Capping a multiple of 5 at 65, itself a multiple of 5, gives a multiple of 5. */
  lemma CapKeepsStep(points: int, units: int)
    requires points == 5 * units
    ensures Min(points, ScoreCap) % 5 == 0
  {
    if points < ScoreCap {
      assert Min(points, ScoreCap) == 5 * units;
    }
  }

  /** The points of criterion `k` in units of 5. */
  function Units(met: seq<bool>, k: nat): nat
    requires k < |met|
  {
    PointsIf(met[k], Weight(k) / 5)
  }

  function TotalUnits(met: seq<bool>): nat
    requires |met| == CriteriaCount
  {
    Units(met, 0) + Units(met, 1) + Units(met, 2) + Units(met, 3) + Units(met, 4) +
    Units(met, 5) + Units(met, 6) + Units(met, 7) + Units(met, 8) + Units(met, 9)
  }

  /** The points earned are five times the units earned. */
  lemma EarnedInUnits(met: seq<bool>)
    requires |met| == CriteriaCount
    ensures Earned(met) == 5 * TotalUnits(met)
  {
    EarnedTerms(met);
    forall k | 0 <= k < CriteriaCount
      ensures Term(met, k) == 5 * Units(met, k)
    {
    }
  }

  /**
   * On a multiple of 5 the quotient `raw * 100 / 65` is exact only at 0 and
   * 65; elsewhere its fractional part lies between 5/65 and 60/65, far from
   * the rounding error of one double division and product.
   */
  lemma PercentageMargin(raw: int)
    requires 0 <= raw <= ScoreCap && raw % 5 == 0
    ensures raw * 100 % ScoreCap == 0 <==> raw == 0 || raw == ScoreCap
    ensures raw * 100 % ScoreCap != 0 ==> 5 <= raw * 100 % ScoreCap <= ScoreCap - 5
  {
    var k := raw / 5;
    assert raw == 5 * k && 0 <= k <= 13;
    assert k == 0 || k == 1 || k == 2 || k == 3 || k == 4 || k == 5 || k == 6 ||
           k == 7 || k == 8 || k == 9 || k == 10 || k == 11 || k == 12 || k == 13;
  }

  datatype SeoReport = SeoReport(url: string, score: int, basic: Basic)

  datatype SeoOutcome = Analysed(report: SeoReport) | AnalysisFailed

  /**
   * `analyzeSEO`. `base` gives `protocol//hostname` of the normalised URL,
   * nothing when it does not parse; `fetch` gives the page, nothing when the
   * request fails.
   */
  method AnalyzeSEO(url: string, base: string -> Option<string>, fetch: string -> Option<Page>,
                    resolve: string -> Option<string>) returns (outcome: SeoOutcome)
    ensures outcome.AnalysisFailed? <==> base(NormalizeUrl(url)).None? || fetch(NormalizeUrl(url)).None?
    ensures outcome.Analysed? ==>
      var page := fetch(NormalizeUrl(url)).value;
      && outcome.report.url == NormalizeUrl(url)
      && outcome.report.basic == ExtractBasic(page)
      && outcome.report.score == Percentage(CappedScore(PageAnalyses(page, resolve, base(NormalizeUrl(url)).value)))
  {
    var u := NormalizeUrl(url);
    var baseUrl := base(u);
    if baseUrl.None? {
      return AnalysisFailed;
    }
    var response := fetch(u);
    if response.None? {
      return AnalysisFailed;
    }
    var page := response.value;
    var raw := ScorePage(page, resolve, baseUrl.value);
    outcome := Analysed(SeoReport(u, Percentage(raw), ExtractBasic(page)));
  }

  /** What `analyzeSEO` hands to `calculateScore`. */
  datatype Analyses = Analyses(basic: Basic, h1: seq<string>, images: ImageTally, structured: StructuredData,
                               mobileFriendly: bool, links: LinkCounts)

  /** The analyses of a fetched page, each stated by its specification. */
  function PageAnalyses(page: Page, resolve: string -> Option<string>, baseUrl: string): Analyses {
    var alts := page.imageAlts;
    var classified := Classified(page.hrefs, resolve, baseUrl);
    Analyses(ExtractBasic(page), NonBlankTexts(page.h1),
             ImageTally(|alts|, |alts| - CountWithAlt(alts), CountWithAlt(alts)),
             StructuredData(page.jsonLdScripts > 0, page.itemscopes > 0),
             CheckMobileFriendly(page.viewport),
             LinkCounts(|classified.0|, |classified.1|))
  }

  /** The capped score of a set of analyses. */
  function CappedScore(a: Analyses): int {
    Min(Earned(Criteria(a.basic, a.h1, a.images, a.structured, a.mobileFriendly, a.links)), ScoreCap)
  }

  /**
   * The analyses `analyzeSEO` runs on the loaded page. The tag values, the
   * structured-data flags and the viewport check are functions of the page;
   * the headings, images and links come from their loops.
   */
  method AnalysePage(page: Page, resolve: string -> Option<string>, baseUrl: string) returns (a: Analyses)
    ensures a == PageAnalyses(page, resolve, baseUrl)
  {
    var h1 := ExtractTexts(page.h1);
    var images := AnalyzeImages(page.imageAlts);
    var links := AnalyzeLinks(page.hrefs, resolve, baseUrl);
    a := PageAnalyses(page, resolve, baseUrl).(h1 := h1, images := images, links := links);
  }

  /** The body of `analyzeSEO` once the page is loaded: every analysis, then the capped score. */
  method ScorePage(page: Page, resolve: string -> Option<string>, baseUrl: string) returns (score: int)
    ensures score == CappedScore(PageAnalyses(page, resolve, baseUrl))
    ensures 0 <= score <= ScoreCap
  {
    var a := AnalysePage(page, resolve, baseUrl);
    score := CalculateScore(a.basic, a.h1, a.images, a.structured, a.mobileFriendly, a.links);
  }
}
