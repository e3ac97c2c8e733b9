/**
 * Social profile enrichment: the username of a profile URL, the technology
 * frequency scoring of a GitHub account's repositories, the fixed LinkedIn
 * entry, and the assembly of all platform results.
 *
 * The HTTP calls are foreign. URL parsing is represented by its outcome
 * (the pathname, or nothing when `new URL` throws); a repository's tree
 * and package files are inputs (paths already lower-cased); each platform
 * fetch is represented by how its promise settles.
 */
module Social {
  import opened Wrappers
  import opened Text
  import opened Records

  // ---------------------------------------------------------------- usernames

  /** `s.split(sep)`: the pieces between separators, empty pieces included. */
  function Split(s: string, sep: char): (pieces: seq<string>)
    ensures |pieces| >= 1
    ensures forall i :: 0 <= i < |pieces| ==> sep !in pieces[i]
    decreases |s|
  {
    if s == [] then [""]
    else
      var init := Split(s[..|s| - 1], sep);
      if s[|s| - 1] == sep then init + [""]
      else init[..|init| - 1] + [init[|init| - 1] + [s[|s| - 1]]]
  }

  /** `.filter(Boolean)` on strings: keep the non-empty ones. */
  function NonEmpty(pieces: seq<string>): (r: seq<string>)
    ensures forall i :: 0 <= i < |r| ==> r[i] != ""
    ensures forall x :: x in r ==> x in pieces
    decreases |pieces|
  {
    if pieces == [] then []
    else NonEmpty(pieces[..|pieces| - 1]) + (if pieces[|pieces| - 1] == "" then [] else [pieces[|pieces| - 1]])
  }

  /** `extractUsername`: the last non-empty segment of the URL's path, or null. */
  function ExtractUsername(pathname: Option<string>): (u: Option<string>)
    ensures pathname.None? ==> u.None?
    ensures u.Some? ==> u.value != "" && '/' !in u.value
  {
    if pathname.None? then None
    else
      var segments := NonEmpty(Split(pathname.value, '/'));
      if segments == [] then None
      else
        var pieces := Split(pathname.value, '/');
        assert segments[|segments| - 1] in pieces;
        Some(segments[|segments| - 1])
  }

  /** The path without its trailing slashes. */
  function DropTrailingSlashes(p: string): (q: string)
    ensures q <= p && (q == [] || q[|q| - 1] != '/')
    ensures forall i :: |q| <= i < |p| ==> p[i] == '/'
    decreases |p|
  {
    if p != [] && p[|p| - 1] == '/' then DropTrailingSlashes(p[..|p| - 1]) else p
  }

  /** The longest suffix of `p` without a slash. */
  function TailSegment(p: string): (t: string)
    ensures |t| <= |p| && p[|p| - |t|..] == t && '/' !in t
    ensures |t| < |p| ==> p[|p| - |t| - 1] == '/'
    decreases |p|
  {
    if p == [] || p[|p| - 1] == '/' then [] else TailSegment(p[..|p| - 1]) + [p[|p| - 1]]
  }

  /**
   * An independent description of the username: drop the trailing slashes;
   * if something is left, the name is the last slash-free stretch before them.
   */
  function LastSegment(p: string): (u: Option<string>)
    ensures u.Some? ==> u.value != "" && '/' !in u.value
  {
    var q := DropTrailingSlashes(p);
    if q == [] then None
    else
      assert q[|q| - 1] != '/';
      Some(TailSegment(q))
  }

  /** There is no username exactly when the path is nothing but slashes. */
  lemma LastSegmentNone(p: string)
    ensures LastSegment(p).None? <==> forall i :: 0 <= i < |p| ==> p[i] == '/'
  {
    var q := DropTrailingSlashes(p);
    if q != [] {
      assert p[|q| - 1] == q[|q| - 1];
    }
  }

  lemma {:induction false} SplitLastIsTail(s: string)
    ensures Split(s, '/')[|Split(s, '/')| - 1] == TailSegment(s)
    decreases |s|
  {
    if s != [] {
      SplitLastIsTail(s[..|s| - 1]);
    }
  }

  lemma SplitSlash(p: string)
    requires p != [] && p[|p| - 1] == '/'
    ensures NonEmpty(Split(p, '/')) == NonEmpty(Split(p[..|p| - 1], '/'))
    ensures DropTrailingSlashes(p) == DropTrailingSlashes(p[..|p| - 1])
  {
    var pieces := Split(p[..|p| - 1], '/');
    assert Split(p, '/') == pieces + [""];
    assert (pieces + [""])[..|pieces|] == pieces;
  }

  lemma SplitOther(p: string)
    requires p != [] && p[|p| - 1] != '/'
    ensures NonEmpty(Split(p, '/')) ==
      NonEmpty(Split(p[..|p| - 1], '/')[..|Split(p[..|p| - 1], '/')| - 1]) + [TailSegment(p)]
  {
    var init := p[..|p| - 1];
    var c := p[|p| - 1];
    var pieces := Split(init, '/');
    SplitLastIsTail(init);
    var last := pieces[|pieces| - 1] + [c];
    var r := pieces[..|pieces| - 1] + [last];
    assert Split(p, '/') == r;
    assert r[..|r| - 1] == pieces[..|pieces| - 1];
    assert TailSegment(p) == TailSegment(init) + [c];
  }

  /** The split-and-filter computation agrees with the direct description. */
  lemma {:induction false} ExtractUsernameIsLastSegment(p: string)
    ensures ExtractUsername(Some(p)) == LastSegment(p)
    decreases |p|
  {
    if p != [] {
      if p[|p| - 1] == '/' {
        ExtractUsernameIsLastSegment(p[..|p| - 1]);
        SplitSlash(p);
        assert ExtractUsername(Some(p)) == ExtractUsername(Some(p[..|p| - 1]));
        assert LastSegment(p) == LastSegment(p[..|p| - 1]);
      } else {
        SplitOther(p);
        var segments := NonEmpty(Split(p, '/'));
        assert segments[|segments| - 1] == TailSegment(p);
        assert ExtractUsername(Some(p)) == Some(TailSegment(p));
        assert DropTrailingSlashes(p) == p;
        assert LastSegment(p) == Some(TailSegment(p));
      }
    }
  }

  /** `fetchLinkedIn`: never scraped; an entry that carries an error and no stats. */
  function FetchLinkedIn(url: string): (p: SocialProfile)
    ensures p.platform == "linkedin" && p.profileUrl == url
    ensures p.error == Some("LinkedIn scraping disabled (ToS & legal risk)") && p.stats.None? && p.username.None?
  {
    SocialProfile("linkedin", None, url, None, Some("LinkedIn scraping disabled (ToS & legal risk)"))
  }

  // ---------------------------------------------------------- tech frequency

  /** Every amount the analysis adds is positive. */
  type Amount = n: nat | n > 0 witness 1

  /** One `bump(key, value)`. */
  datatype Bump = Bump(key: string, amount: Amount)

  /** `techFrequency[key] || 0`. */
  function Get(freq: map<string, int>, key: string): int {
    if key in freq then freq[key] else 0
  }

  /** The bumps applied in order. */
  function Apply(freq: map<string, int>, bs: seq<Bump>): map<string, int>
    decreases |bs|
  {
    if bs == [] then freq
    else
      var prev := Apply(freq, bs[..|bs| - 1]);
      var b := bs[|bs| - 1];
      prev[b.key := Get(prev, b.key) + b.amount]
  }

  /** The total amount the bumps add to `key`. */
  function Weight(bs: seq<Bump>, key: string): nat
    decreases |bs|
  {
    if bs == [] then 0
    else Weight(bs[..|bs| - 1], key) + (if bs[|bs| - 1].key == key then bs[|bs| - 1].amount else 0)
  }

  lemma {:induction false} ApplyConcat(freq: map<string, int>, a: seq<Bump>, b: seq<Bump>)
    ensures Apply(freq, a + b) == Apply(Apply(freq, a), b)
    decreases |b|
  {
    if b == [] {
      assert a + b == a;
    } else {
      var b' := b[..|b| - 1];
      assert (a + b)[..|a + b| - 1] == a + b';
      ApplyConcat(freq, a, b');
    }
  }

  lemma {:induction false} WeightConcat(a: seq<Bump>, b: seq<Bump>, key: string)
    ensures Weight(a + b, key) == Weight(a, key) + Weight(b, key)
    decreases |b|
  {
    if b == [] {
      assert a + b == a;
    } else {
      var b' := b[..|b| - 1];
      assert (a + b)[..|a + b| - 1] == a + b';
      WeightConcat(a, b', key);
    }
  }

  /**
   * Every count is its starting count plus the weight of the bumps for it,
   * and a key is present exactly when it was or some bump names it. Counts
   * therefore never decrease.
   */
  lemma {:induction false} ApplyWeight(freq: map<string, int>, bs: seq<Bump>, key: string)
    ensures Get(Apply(freq, bs), key) == Get(freq, key) + Weight(bs, key)
    ensures key in Apply(freq, bs) <==> key in freq || Weight(bs, key) > 0
    decreases |bs|
  {
    if bs != [] {
      ApplyWeight(freq, bs[..|bs| - 1], key);
    }
  }

  /** The technologies the extension rules count. */
  const ExtensionKeys := {"react", "typescript", "javascript", "c++", "python", "java"}

  /** The extension rules, an else-if chain: at most one applies to a file. */
  function ExtensionBump(file: string): (bs: seq<Bump>)
    ensures |bs| <= 2
  {
    if EndsWith(file, ".tsx") then [Bump("react", 2), Bump("typescript", 2)]
    else if EndsWith(file, ".jsx") then [Bump("react", 2), Bump("javascript", 1)]
    else if EndsWith(file, ".ts") then [Bump("typescript", 1)]
    else if EndsWith(file, ".js") then [Bump("javascript", 1)]
    else if EndsWith(file, ".cpp") || EndsWith(file, ".hpp") then [Bump("c++", 2)]
    else if EndsWith(file, ".py") then [Bump("python", 1)]
    else if EndsWith(file, ".java") then [Bump("java", 1)]
    else []
  }

  /** The extension rules bump only the extension technologies. */
  lemma ExtensionBumpKeys(file: string)
    ensures forall i :: 0 <= i < |ExtensionBump(file)| ==> ExtensionBump(file)[i].key in ExtensionKeys
  {
    var bs := ExtensionBump(file);
    if |bs| == 2 {
      assert bs[0].key == "react";
      assert bs[1].key == "typescript" || bs[1].key == "javascript";
    } else if |bs| == 1 {
      assert bs[0].key in ExtensionKeys;
    }
  }

  /** A `.tsx` file counts 2 for react and 2 for typescript, not 3: the `.ts` rule does not also fire. */
  lemma ExtensionExamples()
    ensures ExtensionBump("app.tsx") == [Bump("react", 2), Bump("typescript", 2)]
    ensures Weight(ExtensionBump("app.tsx"), "typescript") == 2
    ensures ExtensionBump("app.jsx") == [Bump("react", 2), Bump("javascript", 1)]
    ensures Weight(ExtensionBump("app.jsx"), "javascript") == 1
  {
    assert EndsWith("app.tsx", ".tsx") by { assert "app.tsx"[3..] == ".tsx"; }
    assert !EndsWith("app.jsx", ".tsx") by { assert "app.jsx"[3..] != ".tsx"; }
    assert EndsWith("app.jsx", ".jsx") by { assert "app.jsx"[3..] == ".jsx"; }
    assert [Bump("react", 2), Bump("typescript", 2)][..1] == [Bump("react", 2)];
    assert [Bump("react", 2), Bump("javascript", 1)][..1] == [Bump("react", 2)];
  }

  /** The extension loop over a repository's files: at most two bumps per file, only for the extension technologies. */
  function ExtensionBumps(files: seq<string>): (bs: seq<Bump>)
    ensures |bs| <= 2 * |files|
    ensures forall i :: 0 <= i < |bs| ==> bs[i].key in ExtensionKeys
    decreases |files|
  {
    if files == [] then []
    else
      ExtensionBumpKeys(files[|files| - 1]);
      ExtensionBumps(files[..|files| - 1]) + ExtensionBump(files[|files| - 1])
  }

  /** `files.some(f => f.includes(part))` */
  predicate AnyContains(files: seq<string>, part: string) {
    exists i :: 0 <= i < |files| && Contains(files[i], part)
  }

  /** `files.some(f => f.startsWith(a) || f.startsWith(b))` */
  predicate AnyStartsWith(files: seq<string>, a: string, b: string) {
    exists i :: 0 <= i < |files| && (StartsWith(files[i], a) || StartsWith(files[i], b))
  }

  /** One `if (condition) bump(key, value)` of a straight-line block of signals. */
  datatype Rule = Rule(fires: bool, bump: Bump)

  /** The bumps of the rules that fire, in order. */
  function Fired(rules: seq<Rule>): seq<Bump>
    decreases |rules|
  {
    if rules == [] then []
    else
      var r := rules[|rules| - 1];
      Fired(rules[..|rules| - 1]) + (if r.fires then [r.bump] else [])
  }

  predicate DistinctKeys(rules: seq<Rule>) {
    forall i, j :: 0 <= i < j < |rules| ==> rules[i].bump.key != rules[j].bump.key
  }

  lemma {:induction false} FiredWeightAbsent(rules: seq<Rule>, key: string)
    requires forall i :: 0 <= i < |rules| ==> rules[i].bump.key != key
    ensures Weight(Fired(rules), key) == 0
    decreases |rules|
  {
    if rules != [] {
      var init := rules[..|rules| - 1];
      FiredWeightAbsent(init, key);
      WeightConcat(Fired(init), if rules[|rules| - 1].fires then [rules[|rules| - 1].bump] else [], key);
    }
  }

  /** In a block whose keys are distinct, each rule adds its amount once if it fires and nothing otherwise. */
  lemma {:induction false} FiredWeightUnique(rules: seq<Rule>, i: nat)
    requires DistinctKeys(rules) && i < |rules|
    ensures Weight(Fired(rules), rules[i].bump.key) == if rules[i].fires then rules[i].bump.amount else 0
    decreases |rules|
  {
    var init := rules[..|rules| - 1];
    var last := rules[|rules| - 1];
    var key := rules[i].bump.key;
    WeightConcat(Fired(init), if last.fires then [last.bump] else [], key);
    if i == |rules| - 1 {
      FiredWeightAbsent(init, key);
    } else {
      FiredWeightUnique(init, i);
    }
  }

  /** The config-file and backend signals. */
  function ConfigRules(files: seq<string>): (rules: seq<Rule>)
    ensures |rules| == 9 && DistinctKeys(rules)
  {
    [ Rule(AnyContains(files, "tailwind.config"), Bump("tailwindcss", 4)),
      Rule(AnyContains(files, "next.config"), Bump("nextjs", 4)),
      Rule(AnyContains(files, "vite.config"), Bump("vite", 3)),
      Rule(AnyContains(files, "webpack.config"), Bump("webpack", 2)),
      Rule(AnyContains(files, "tsconfig"), Bump("typescript", 2)),
      Rule(AnyContains(files, "dockerfile"), Bump("docker", 2)),
      Rule(AnyContains(files, "prisma/schema.prisma"), Bump("prisma", 4)),
      Rule(AnyContains(files, "mongoose"), Bump("mongodb", 1)),
      Rule(AnyContains(files, "socket.io"), Bump("socket.io", 2)) ]
  }

  /** The exact-path (Python, C++) and folder signals. */
  function LayoutRules(files: seq<string>): (rules: seq<Rule>)
    ensures |rules| == 4 && DistinctKeys(rules)
  {
    [ Rule("requirements.txt" in files || "pyproject.toml" in files, Bump("python", 4)),
      Rule("cmakelists.txt" in files, Bump("c++", 4)),
      Rule(AnyStartsWith(files, "frontend/", "client/"), Bump("frontend-architecture", 2)),
      Rule(AnyStartsWith(files, "backend/", "server/"), Bump("backend-architecture", 2)) ]
  }

  /**
   * Each config, backend, Python/C++ and folder signal fires at most once
   * per repository, however many files match.
   */
  lemma SignalsFireOnce(files: seq<string>)
    ensures forall i :: 0 <= i < |ConfigRules(files)| ==>
      Weight(Fired(ConfigRules(files)), ConfigRules(files)[i].bump.key) ==
        if ConfigRules(files)[i].fires then ConfigRules(files)[i].bump.amount else 0
    ensures forall i :: 0 <= i < |LayoutRules(files)| ==>
      Weight(Fired(LayoutRules(files)), LayoutRules(files)[i].bump.key) ==
        if LayoutRules(files)[i].fires then LayoutRules(files)[i].bump.amount else 0
    ensures Weight(Fired(ConfigRules(files)), "docker") == if AnyContains(files, "dockerfile") then 2 else 0
  {
    var config, layout := ConfigRules(files), LayoutRules(files);
    forall i | 0 <= i < |config|
      ensures Weight(Fired(config), config[i].bump.key) == if config[i].fires then config[i].bump.amount else 0
    {
      FiredWeightUnique(config, i);
    }
    forall i | 0 <= i < |layout|
      ensures Weight(Fired(layout), layout[i].bump.key) == if layout[i].fires then layout[i].bump.amount else 0
    {
      FiredWeightUnique(layout, i);
    }
    assert config[5].bump.key == "docker";
  }

  /** A `package.json` as parsed: its two dependency records. */
  datatype PackageJson = PackageJson(dependencies: map<string, string>, devDependencies: map<string, string>)

  /** `deps[name]` is truthy in `{...dependencies, ...devDependencies}`: a dev entry overrides. */
  predicate HasDep(pkg: PackageJson, name: string) {
    if name in pkg.devDependencies then pkg.devDependencies[name] != ""
    else name in pkg.dependencies && pkg.dependencies[name] != ""
  }

  /** The dependency signals of one `package.json`. */
  function DepRules(pkg: PackageJson): (rules: seq<Rule>)
    ensures |rules| == 12 && DistinctKeys(rules)
  {
    [ Rule(HasDep(pkg, "react"), Bump("react", 5)),
      Rule(HasDep(pkg, "next"), Bump("nextjs", 5)),
      Rule(HasDep(pkg, "express"), Bump("express", 4)),
      Rule(HasDep(pkg, "@nestjs/core"), Bump("nestjs", 5)),
      Rule(HasDep(pkg, "tailwindcss"), Bump("tailwindcss", 5)),
      Rule(HasDep(pkg, "redux") || HasDep(pkg, "@reduxjs/toolkit"), Bump("redux", 4)),
      Rule(HasDep(pkg, "zustand"), Bump("zustand", 3)),
      Rule(HasDep(pkg, "vite"), Bump("vite", 4)),
      Rule(HasDep(pkg, "react-scripts"), Bump("cra", 3)),
      Rule(HasDep(pkg, "mongoose"), Bump("mongodb", 4)),
      Rule(HasDep(pkg, "prisma"), Bump("prisma", 4)),
      Rule(HasDep(pkg, "socket.io"), Bump("socket.io", 4)) ]
  }

  /** Within one `package.json` each dependency signal adds its amount once if present, and nothing otherwise. */
  lemma DepSignalsFireOnce(pkg: PackageJson)
    ensures forall i :: 0 <= i < |DepRules(pkg)| ==>
      Weight(Fired(DepRules(pkg)), DepRules(pkg)[i].bump.key) ==
        if DepRules(pkg)[i].fires then DepRules(pkg)[i].bump.amount else 0
  {
    var rules := DepRules(pkg);
    forall i | 0 <= i < |rules|
      ensures Weight(Fired(rules), rules[i].bump.key) == if rules[i].fires then rules[i].bump.amount else 0
    {
      FiredWeightUnique(rules, i);
    }
  }

  /** `files.filter(f => f.endsWith("package.json"))` */
  function PackagePaths(files: seq<string>): (paths: seq<string>)
    ensures forall i :: 0 <= i < |paths| ==> EndsWith(paths[i], "package.json") && paths[i] in files
    decreases |files|
  {
    if files == [] then []
    else
      var init := files[..|files| - 1];
      var f := files[|files| - 1];
      PackagePaths(init) + (if EndsWith(f, "package.json") then [f] else [])
  }

  /**
   * The bumps of the given package paths, each on its own; `packages` holds
   * the paths whose contents could be fetched and parsed (the others are
   * skipped).
   */
  function PackageBumps(paths: seq<string>, packages: map<string, PackageJson>): (bs: seq<Bump>)
    decreases |paths|
  {
    if paths == [] then []
    else
      var p := paths[|paths| - 1];
      PackageBumps(paths[..|paths| - 1], packages) + (if p in packages then Fired(DepRules(packages[p])) else [])
  }

  /** One repository of `/users/{name}/repos`: `tree` is absent when fetching it throws. */
  datatype Repo = Repo(fork: bool, size: int, tree: Option<seq<string>>, packages: map<string, PackageJson>)

  /** Forks, repositories under 100 KB and unreadable trees contribute nothing. */
  predicate Counted(repo: Repo) {
    !(repo.fork || repo.size < 100) && repo.tree.Some?
  }

  function RepoBumps(repo: Repo): (bs: seq<Bump>)
    ensures !Counted(repo) ==> bs == []
  {
    if !Counted(repo) then []
    else
      var files := repo.tree.value;
      ExtensionBumps(files) + Fired(ConfigRules(files)) + PackageBumps(PackagePaths(files), repo.packages) + Fired(LayoutRules(files))
  }

  function AllBumps(repos: seq<Repo>): (bs: seq<Bump>)
    decreases |repos|
  {
    if repos == [] then [] else AllBumps(repos[..|repos| - 1]) + RepoBumps(repos[|repos| - 1])
  }

  /**
   * `analyzeGitHubRepos` over the listed repositories: the frequency map
   * the bumps build, repository by repository.
   */
  method AnalyzeGitHubRepos(repos: seq<Repo>) returns (freq: map<string, int>)
    ensures freq == Apply(map[], AllBumps(repos))
  {
    freq := map[];
    var i := 0;
    while i < |repos|
      invariant 0 <= i <= |repos|
      invariant freq == Apply(map[], AllBumps(repos[..i]))
    {
      assert repos[..i + 1][..i] == repos[..i];
      ApplyConcat(map[], AllBumps(repos[..i]), RepoBumps(repos[i]));
      freq := AnalyzeRepo(freq, repos[i]);
      i := i + 1;
    }
    assert repos[..i] == repos;
  }

  /** The body of the repository loop: the extension loop, the signals, then the package-file loop. */
  method AnalyzeRepo(freq0: map<string, int>, repo: Repo) returns (freq: map<string, int>)
    ensures freq == Apply(freq0, RepoBumps(repo))
  {
    freq := freq0;
    if repo.fork || repo.size < 100 {
      return;
    }
    if repo.tree.None? {
      return;
    }
    var files := repo.tree.value;
    var c, l := Fired(ConfigRules(files)), Fired(LayoutRules(files));
    ghost var e, p := ExtensionBumps(files), PackageBumps(PackagePaths(files), repo.packages);
    freq := BumpExtensions(freq, files);
    ApplyConcat(freq0, e, c);
    freq := Apply(freq, c);
    freq := BumpPackages(freq, PackagePaths(files), repo.packages);
    ApplyConcat(freq0, e + c, p);
    freq := Apply(freq, l);
    ApplyConcat(freq0, e + c + p, l);
  }

  /** `for (const file of files)`: the extension rule of each file in turn. */
  method BumpExtensions(freq0: map<string, int>, files: seq<string>) returns (freq: map<string, int>)
    ensures freq == Apply(freq0, ExtensionBumps(files))
  {
    freq := freq0;
    var j := 0;
    while j < |files|
      invariant 0 <= j <= |files|
      invariant freq == Apply(freq0, ExtensionBumps(files[..j]))
    {
      assert files[..j + 1][..j] == files[..j];
      ApplyConcat(freq0, ExtensionBumps(files[..j]), ExtensionBump(files[j]));
      freq := Apply(freq, ExtensionBump(files[j]));
      j := j + 1;
    }
    assert files[..j] == files;
  }

  /** `for (const pkgPath of pkgPaths)`: a file that cannot be fetched or parsed is skipped. */
  method BumpPackages(freq0: map<string, int>, paths: seq<string>, packages: map<string, PackageJson>)
    returns (freq: map<string, int>)
    ensures freq == Apply(freq0, PackageBumps(paths, packages))
  {
    freq := freq0;
    var k := 0;
    while k < |paths|
      invariant 0 <= k <= |paths|
      invariant freq == Apply(freq0, PackageBumps(paths[..k], packages))
    {
      var path := paths[k];
      assert paths[..k + 1][..k] == paths[..k] && paths[..k + 1][k] == path;
      if path in packages {
        var d := Fired(DepRules(packages[path]));
        assert PackageBumps(paths[..k + 1], packages) == PackageBumps(paths[..k], packages) + d;
        ApplyConcat(freq0, PackageBumps(paths[..k], packages), d);
        freq := Apply(freq, d);
      } else {
        ghost var done := PackageBumps(paths[..k], packages);
        assert PackageBumps(paths[..k + 1], packages) == done + [] && done + [] == done;
      }
      k := k + 1;
    }
    assert paths[..k] == paths;
  }

  /** Two package files each add their own bumps: bumps of a concatenation are the concatenation of bumps. */
  lemma {:induction false} PackageBumpsConcat(a: seq<string>, b: seq<string>, packages: map<string, PackageJson>)
    ensures PackageBumps(a + b, packages) == PackageBumps(a, packages) + PackageBumps(b, packages)
    decreases |b|
  {
    if b == [] {
      assert a + b == a;
    } else {
      var b' := b[..|b| - 1];
      assert (a + b)[..|a + b| - 1] == a + b';
      PackageBumpsConcat(a, b', packages);
    }
  }

  /** Every count in the result is positive and is the total weight of its bumps. */
  lemma AnalysisCounts(repos: seq<Repo>, key: string)
    ensures key in Apply(map[], AllBumps(repos)) <==> Weight(AllBumps(repos), key) > 0
    ensures Get(Apply(map[], AllBumps(repos)), key) == Weight(AllBumps(repos), key)
  {
    ApplyWeight(map[], AllBumps(repos), key);
  }

  // ------------------------------------------------------------ aggregation

  /** How one platform fetch settles: its profile, or the rejection's message ("" when it has none). */
  datatype Settled = Fulfilled(profile: SocialProfile) | Rejected(message: string)

  /** The platforms fetched concurrently, in the order their tasks are pushed. */
  const FetchedPlatforms: seq<string> := ["github", "leetcode", "codeforces", "codechef", "gfg"]

  /** `social[platform]` is truthy. */
  predicate Supplied(social: map<string, string>, platform: string) {
    platform in social && social[platform] != ""
  }

  /** The entry for one settled fetch. */
  function SettledEntry(s: Settled): (p: SocialProfile)
    ensures s.Rejected? ==> p.platform == "unknown" && p.profileUrl == "" && p.stats.None? && p.error.Some?
    ensures s.Rejected? ==> p.error.value == if s.message == "" then "Failed to fetch" else s.message
    ensures s.Fulfilled? ==> p == s.profile
  {
    match s
    case Fulfilled(profile) => profile
    case Rejected(m) => SocialProfile("unknown", None, "", None, Some(if m == "" then "Failed to fetch" else m))
  }

  /** The supplied platforms among `platforms`, in order. */
  function Tasks(social: map<string, string>, platforms: seq<string>): (ts: seq<string>)
    ensures forall i :: 0 <= i < |ts| ==> Supplied(social, ts[i]) && ts[i] in platforms
    decreases |platforms|
  {
    if platforms == [] then []
    else
      var p := platforms[|platforms| - 1];
      Tasks(social, platforms[..|platforms| - 1]) + (if Supplied(social, p) then [p] else [])
  }

  /** The settled outcomes of the fetches, in the order they were pushed. */
  function Entries(social: map<string, string>, tasks: seq<string>, settle: (string, string) -> Settled)
    : (es: seq<SocialProfile>)
    requires forall i :: 0 <= i < |tasks| ==> tasks[i] in social
    ensures |es| == |tasks|
  {
    seq(|tasks|, i requires 0 <= i < |tasks| => SettledEntry(settle(tasks[i], social[tasks[i]])))
  }

  /** The LinkedIn entry, placed first when a LinkedIn link is supplied. */
  function LinkedInEntry(social: map<string, string>): seq<SocialProfile> {
    if Supplied(social, "linkedin") then [FetchLinkedIn(social["linkedin"])] else []
  }

  /** What `fetchAllSocialProfiles` returns: the LinkedIn entry first, then the settled fetches in task order. */
  function AllProfiles(social: map<string, string>, settle: (string, string) -> Settled): seq<SocialProfile>
  {
    LinkedInEntry(social) + Entries(social, Tasks(social, FetchedPlatforms), settle)
  }

  /** `fetchAllSocialProfiles`: push the fetches, add the LinkedIn entry, then the settled results. */
  method FetchAllSocialProfiles(social: map<string, string>, settle: (string, string) -> Settled)
    returns (results: seq<SocialProfile>)
    ensures results == AllProfiles(social, settle)
  {
    var tasks := CollectTasks(social);
    results := [];
    if "linkedin" in social && social["linkedin"] != "" {
      results := results + [FetchLinkedIn(social["linkedin"])];
    }
    var settled := SettleTasks(social, tasks, settle);
    results := results + settled;
  }

  /** The `allSettled` results mapped to profiles, one per task, in task order. */
  method SettleTasks(social: map<string, string>, tasks: seq<string>, settle: (string, string) -> Settled)
    returns (entries: seq<SocialProfile>)
    requires forall i :: 0 <= i < |tasks| ==> tasks[i] in social
    ensures entries == Entries(social, tasks, settle)
  {
    entries := [];
    var k := 0;
    while k < |tasks|
      invariant 0 <= k <= |tasks| && |entries| == k
      invariant forall j :: 0 <= j < k ==> entries[j] == SettledEntry(settle(tasks[j], social[tasks[j]]))
    {
      var s := settle(tasks[k], social[tasks[k]]);
      match s {
        case Fulfilled(profile) => entries := entries + [profile];
        case Rejected(m) =>
          entries := entries + [SocialProfile("unknown", None, "", None, Some(if m == "" then "Failed to fetch" else m))];
      }
      k := k + 1;
    }
  }

  /** The `if (social.x) tasks.push(...)` statements, in order. */
  method CollectTasks(social: map<string, string>) returns (tasks: seq<string>)
    ensures tasks == Tasks(social, FetchedPlatforms)
  {
    tasks := [];
    var i := 0;
    while i < |FetchedPlatforms|
      invariant 0 <= i <= |FetchedPlatforms|
      invariant tasks == Tasks(social, FetchedPlatforms[..i])
    {
      var platform := FetchedPlatforms[i];
      assert FetchedPlatforms[..i + 1][..i] == FetchedPlatforms[..i];
      if platform in social && social[platform] != "" {
        tasks := tasks + [platform];
      }
      i := i + 1;
    }
    assert FetchedPlatforms[..i] == FetchedPlatforms;
  }

  /** Of distinct platforms, a task is pushed exactly for each supplied one. */
  lemma {:induction false} TasksExact(social: map<string, string>, platforms: seq<string>, p: string)
    requires forall i, j :: 0 <= i < j < |platforms| ==> platforms[i] != platforms[j]
    ensures p in Tasks(social, platforms) <==> p in platforms && Supplied(social, p)
    decreases |platforms|
  {
    if platforms != [] {
      TasksExact(social, platforms[..|platforms| - 1], p);
    }
  }

  /**
   * One entry per supplied platform: LinkedIn's first, with its error and
   * no stats, then one per fetched platform.
   */
  lemma ProfilesLayout(social: map<string, string>, settle: (string, string) -> Settled)
    ensures var r := AllProfiles(social, settle);
      var offset := if Supplied(social, "linkedin") then 1 else 0;
      && |r| == offset + |Tasks(social, FetchedPlatforms)|
      && (Supplied(social, "linkedin") ==>
            r[0].platform == "linkedin" && r[0].error.Some? && r[0].stats.None?)
  {
    var head, es := LinkedInEntry(social), Entries(social, Tasks(social, FetchedPlatforms), settle);
    if Supplied(social, "linkedin") {
      assert (head + es)[0] == head[0];
    }
  }

  /** A platform is fetched exactly when it is one of the five and its link is supplied. */
  lemma FetchedTasks(social: map<string, string>, p: string)
    ensures p in Tasks(social, FetchedPlatforms) <==> p in FetchedPlatforms && Supplied(social, p)
  {
    TasksExact(social, FetchedPlatforms, p);
  }

  /** After the LinkedIn entry, the results follow the fetches one for one, each the settled outcome of its fetch. */
  lemma ProfilesOrder(social: map<string, string>, settle: (string, string) -> Settled)
    ensures var r := AllProfiles(social, settle);
      var tasks := Tasks(social, FetchedPlatforms);
      var offset := |LinkedInEntry(social)|;
      forall i :: 0 <= i < |tasks| ==> r[offset + i] == SettledEntry(settle(tasks[i], social[tasks[i]]))
  {
    var tasks := Tasks(social, FetchedPlatforms);
    var head, es := LinkedInEntry(social), Entries(social, tasks, settle);
    forall i | 0 <= i < |tasks|
      ensures (head + es)[|head| + i] == SettledEntry(settle(tasks[i], social[tasks[i]]))
    {
      assert (head + es)[|head| + i] == es[i];
    }
  }
}
