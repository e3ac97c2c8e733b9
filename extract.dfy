/**
 * Link extraction from a resume PDF. The PDF libraries are not modelled:
 * their results (the text and document information from pdf-parse, the
 * per-page annotations from pdf.js) are the inputs here.
 */
module Extract {
  import opened Wrappers
  import opened Text
  import opened Collections
  import opened Records

  /** A character of the class `[^\s)>"']`. */
  predicate IsLinkChar(c: char) {
    !IsJsWhitespace(c) && c != ')' && c != '>' && c != '"' && c != '\''
  }

  /** A whole match of the pattern `https?:\/\/[^\s)>"']+`. */
  predicate IsTextLink(l: string) {
    || (StartsWith(l, "http://") && |l| > 7 && forall i :: 7 <= i < |l| ==> IsLinkChar(l[i]))
    || (StartsWith(l, "https://") && |l| > 8 && forall i :: 8 <= i < |l| ==> IsLinkChar(l[i]))
  }

  /** A text link contains no whitespace, so `trim` leaves it as it is. */
  lemma TextLinkHasNoWhitespace(l: string)
    requires IsTextLink(l)
    ensures NoWhitespace(l)
  {
    var k := if StartsWith(l, "https://") && |l| > 8 && forall i :: 8 <= i < |l| ==> IsLinkChar(l[i]) then 8 else 7;
    assert l[..k] == (if k == 8 then "https://" else "http://");
    forall i | 0 <= i < |l| ensures !IsJsWhitespace(l[i]) {
      if i < k {
        assert l[i] == l[..k][i];
      }
    }
  }

  /** Length of the scheme the pattern can match at the start of `s` (0 if none). */
  function SchemeLength(s: string): (k: nat)
    ensures k == 0 || k == 7 || k == 8
    ensures k == 8 ==> StartsWith(s, "https://")
    ensures k == 7 ==> StartsWith(s, "http://")
  {
    if StartsWith(s, "https://") then 8 else if StartsWith(s, "http://") then 7 else 0
  }

  /** Length of the longest run of link characters at the start of `s` (the greedy `+`). */
  function RunLength(s: string): (n: nat)
    ensures n <= |s|
    ensures forall i :: 0 <= i < n ==> IsLinkChar(s[i])
    ensures n < |s| ==> !IsLinkChar(s[n])
    decreases |s|
  {
    if s != [] && IsLinkChar(s[0]) then 1 + RunLength(s[1..]) else 0
  }

  lemma MatchAtStart(s: string, k: nat, n: nat)
    requires k == SchemeLength(s) && k > 0
    requires n == k + RunLength(s[k..]) && n > k
    ensures n <= |s| && IsTextLink(s[..n])
  {
    var m := s[..n];
    forall i | k <= i < n ensures IsLinkChar(m[i]) {
      assert m[i] == s[k..][i - k];
    }
  }

  /**
   * `text.match(/https?:\/\/[^\s)>"']+/g)`: the matches found scanning left
   * to right, each scan resuming after the previous match.
   */
  function Matches(s: string): (links: seq<string>)
    ensures forall l :: l in links ==> IsTextLink(l)
    decreases |s|
  {
    if s == [] then []
    else
      var k := SchemeLength(s);
      var n := k + RunLength(s[k..]);
      if k > 0 && n > k then
        MatchAtStart(s, k, n);
        [s[..n]] + Matches(s[n..])
      else
        Matches(s[1..])
  }

  /**
   * The text links of `extractTextAndMetadata`: the matches, trimmed and
   * deduplicated through a `Set`. Trimming never changes a match.
   */
  function TextLinks(text: Option<string>): (links: seq<string>)
    ensures links == Dedup(if text.Some? then Matches(text.value) else [])
    ensures NoDup(links)
    ensures forall l :: l in links ==> IsTextLink(l)
  {
    var raw := if text.Some? then Matches(text.value) else [];
    var trimmed := seq(|raw|, i requires 0 <= i < |raw| => Trim(raw[i]));
    TrimmedMatchesUnchanged(raw, trimmed);
    Dedup(trimmed)
  }

  lemma TrimmedMatchesUnchanged(raw: seq<string>, trimmed: seq<string>)
    requires forall l :: l in raw ==> IsTextLink(l)
    requires |trimmed| == |raw| && forall i :: 0 <= i < |raw| ==> trimmed[i] == Trim(raw[i])
    ensures trimmed == raw
  {
    forall i | 0 <= i < |raw| ensures trimmed[i] == raw[i] {
      TextLinkHasNoWhitespace(raw[i]);
      TrimNoWhitespace(raw[i]);
    }
  }

  /** What pdf-parse returns: the text (possibly absent) and the document information. */
  datatype PdfText = PdfText(text: Option<string>, info: Metadata)

  datatype TextExtraction = TextExtraction(text: string, metadata: Metadata, textLinks: seq<string>)

  /** `extractTextAndMetadata` on the parser's result. */
  function ExtractTextAndMetadata(pdf: PdfText): (r: TextExtraction)
    ensures pdf.text.None? ==> r.text == "" && r.textLinks == []
    ensures pdf.text.Some? ==> r.text == pdf.text.value
    ensures r.metadata == pdf.info
    ensures NoDup(r.textLinks) && forall l :: l in r.textLinks ==> IsTextLink(l)
  {
    TextExtraction(pdf.text.GetOr(""), pdf.info, TextLinks(pdf.text))
  }

  /** One entry of a page's `getAnnotations()`. */
  datatype Annotation = Annotation(subtype: string, url: Option<string>)

  /** `ann.subtype === "Link" && ann.url` */
  predicate IsLinkAnnotation(a: Annotation) {
    a.subtype == "Link" && a.url.Some? && a.url.value != ""
  }

  /** The urls of a page's link annotations, in order. */
  function PageLinks(annotations: seq<Annotation>): seq<string>
    decreases |annotations|
  {
    if annotations == [] then []
    else
      var last := annotations[|annotations| - 1];
      PageLinks(annotations[..|annotations| - 1]) + (if IsLinkAnnotation(last) then [last.url.value] else [])
  }

  /** The urls of the link annotations of pages 1..numPages, in order. */
  function DocumentLinks(pages: seq<seq<Annotation>>): seq<string>
    decreases |pages|
  {
    if pages == [] then [] else DocumentLinks(pages[..|pages| - 1]) + PageLinks(pages[|pages| - 1])
  }

  lemma PageLinksStep(annotations: seq<Annotation>, j: nat)
    requires j < |annotations|
    ensures PageLinks(annotations[..j + 1]) == PageLinks(annotations[..j]) +
      (if IsLinkAnnotation(annotations[j]) then [annotations[j].url.value] else [])
  {
    assert annotations[..j + 1][..j] == annotations[..j];
  }

  lemma DocumentLinksStep(pages: seq<seq<Annotation>>, i: nat)
    requires i < |pages|
    ensures DocumentLinks(pages[..i + 1]) == DocumentLinks(pages[..i]) + PageLinks(pages[i])
  {
    assert pages[..i + 1][..i] == pages[..i];
  }

  lemma DedupStep(s: seq<string>, x: string)
    ensures Dedup(s + [x]) == AddToSet(Dedup(s), x)
  {
    assert (s + [x])[..|s|] == s;
  }

  /**
   * `extractHyperlinks`: walk pages 1..numPages and their annotations,
   * adding each link annotation's url to a `Set`; return the set's elements
   * in insertion order.
   */
  method ExtractHyperlinks(pages: seq<seq<Annotation>>) returns (links: seq<string>)
    ensures links == Dedup(DocumentLinks(pages))
  {
    links := [];
    var i := 1;
    while i <= |pages|
      invariant 1 <= i <= |pages| + 1
      invariant links == Dedup(DocumentLinks(pages[..i - 1]))
    {
      var annotations := pages[i - 1];
      ghost var done := DocumentLinks(pages[..i - 1]);
      var j := 0;
      assert annotations[..0] == [] && done + PageLinks(annotations[..0]) == done;
      while j < |annotations|
        invariant 0 <= j <= |annotations|
        invariant links == Dedup(done + PageLinks(annotations[..j]))
      {
        var ann := annotations[j];
        PageLinksStep(annotations, j);
        if ann.subtype == "Link" && ann.url.Some? && ann.url.value != "" {
          assert done + PageLinks(annotations[..j + 1]) == (done + PageLinks(annotations[..j])) + [ann.url.value];
          DedupStep(done + PageLinks(annotations[..j]), ann.url.value);
          links := AddToSet(links, ann.url.value);
        } else {
          assert PageLinks(annotations[..j + 1]) == PageLinks(annotations[..j]);
        }
        j := j + 1;
      }
      assert annotations[..j] == annotations;
      DocumentLinksStep(pages, i - 1);
      i := i + 1;
    }
    assert pages[..i - 1] == pages;
  }

  lemma {:induction false} PageLinksExact(annotations: seq<Annotation>, x: string)
    ensures x in PageLinks(annotations) <==>
      exists a :: 0 <= a < |annotations| && IsLinkAnnotation(annotations[a]) && annotations[a].url.value == x
    decreases |annotations|
  {
    if annotations != [] {
      var init := annotations[..|annotations| - 1];
      PageLinksExact(init, x);
      if exists a :: 0 <= a < |annotations| && IsLinkAnnotation(annotations[a]) && annotations[a].url.value == x {
        var a :| 0 <= a < |annotations| && IsLinkAnnotation(annotations[a]) && annotations[a].url.value == x;
        if a < |init| {
          assert init[a] == annotations[a];
        }
      }
      if x in PageLinks(init) {
        var a :| 0 <= a < |init| && IsLinkAnnotation(init[a]) && init[a].url.value == x;
        assert annotations[a] == init[a];
      }
    }
  }

  lemma {:induction false} DocumentLinksExact(pages: seq<seq<Annotation>>, x: string)
    ensures x in DocumentLinks(pages) <==>
      exists p, a :: 0 <= p < |pages| && 0 <= a < |pages[p]| && IsLinkAnnotation(pages[p][a]) && pages[p][a].url.value == x
    decreases |pages|
  {
    if pages != [] {
      var init, last := pages[..|pages| - 1], pages[|pages| - 1];
      DocumentLinksExact(init, x);
      PageLinksExact(last, x);
      if exists p, a :: 0 <= p < |pages| && 0 <= a < |pages[p]| && IsLinkAnnotation(pages[p][a]) && pages[p][a].url.value == x {
        var p, a :| 0 <= p < |pages| && 0 <= a < |pages[p]| && IsLinkAnnotation(pages[p][a]) && pages[p][a].url.value == x;
        if p < |init| {
          assert init[p] == pages[p];
        }
      }
      if x in DocumentLinks(init) {
        var p, a :| 0 <= p < |init| && 0 <= a < |init[p]| && IsLinkAnnotation(init[p][a]) && init[p][a].url.value == x;
        assert pages[p] == init[p];
      }
    }
  }

  /**
   * The links `extractHyperlinks` returns are exactly the distinct urls of
   * link annotations with a url, over all pages, each listed once.
   */
  lemma AnnotationLinksExact(pages: seq<seq<Annotation>>, x: string)
    ensures NoDup(Dedup(DocumentLinks(pages)))
    ensures x in Dedup(DocumentLinks(pages)) <==>
      exists p, a :: 0 <= p < |pages| && 0 <= a < |pages[p]| && IsLinkAnnotation(pages[p][a]) && pages[p][a].url.value == x
  {
    DocumentLinksExact(pages, x);
  }
}
