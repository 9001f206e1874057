/**
 * The dependency health report (`check_dependencies`) of tools/packages.py.
 * The registry is a function argument; the thread pool is the
 * order-preserving map it is observably.
 */
module Packages {
  import opened Wrappers
  import opened Seqs
  import opened Text
  import opened Manifest

  // ---------------------------------------------------------------- registry records

  /**
   * What the registry returns for one package. `months` is the value of
   * `_months_since` on the latest release date; `contributors` is absent when
   * the record has no `contributions_count`; a missing `deprecated` is false.
   */
  datatype PackageRecord = PackageRecord(months: Option<int>, deprecated: bool, contributors: Option<int>)

  /** A registry reply: a record, or the error dictionary `_api_get` builds. */
  datatype Reply = Fetched(record: PackageRecord) | FetchError(message: string)

  /** The registry lookup `_api_get(f"{platform}/{name}")`. */
  type Registry = (string, string) -> Reply

  /** Releases older than this many months make a package stale. */
  const StaleMonths: int := 12
  /** Fewer contributors than this make a package risky. */
  const MinContributors: int := 2
  /** At most this many packages of one manifest are checked. */
  const MaxChecked: nat := 20

  // ---------------------------------------------------------------- classification

  datatype Issue = Deprecated | NoReleaseFor(months: int) | FewContributors

  /** The position of an issue in the order the rule collects issues. */
  function IssueRank(i: Issue): nat {
    match i
    case Deprecated => 0
    case NoReleaseFor(_) => 1
    case FewContributors => 2
  }

  /** The issues of one record, in the order the rule collects them. */
  function Issues(r: PackageRecord): seq<Issue> {
    (if r.deprecated then [Deprecated] else [])
    + (if r.months.Some? && r.months.value > StaleMonths then [NoReleaseFor(r.months.value)] else [])
    + (if r.contributors.GetOr(0) < MinContributors then [FewContributors] else [])
  }

  /**
   * The classification rule: deprecated; stale when the age is known and over
   * 12 months; fewer than 2 contributors, a missing count being 0. Issues are
   * listed in that order, each at most once.
   */
  lemma IssuesRule(r: PackageRecord)
    ensures Deprecated in Issues(r) <==> r.deprecated
    ensures forall m :: NoReleaseFor(m) in Issues(r) <==> r.months == Some(m) && m > StaleMonths
    ensures FewContributors in Issues(r) <==> r.contributors.GetOr(0) < MinContributors
    ensures forall i, j :: 0 <= i < j < |Issues(r)| ==> IssueRank(Issues(r)[i]) < IssueRank(Issues(r)[j])
  {
  }

  /** One line of the report, kept as a value until it is rendered. */
  datatype HealthLine =
    | Header(filename: string, platform: string)
    | Unfetched(name: string)
    | Risky(name: string, version: string, issues: seq<Issue>)
    | Healthy(name: string, version: string)

  /** Which of the report's groups a line belongs to: the header, then failures, risky and healthy packages. */
  function Group(l: HealthLine): nat {
    match l
    case Header(_, _) => 0
    case Unfetched(_) => 1
    case Risky(_, _, _) => 2
    case Healthy(_, _) => 3
  }

  /** The line a package gets from its registry reply; it is never a header. */
  function Classify(p: PackageRef, reply: Reply): (l: HealthLine)
    ensures 1 <= Group(l) <= 3
  {
    match reply
    case FetchError(_) => Unfetched(p.name)
    case Fetched(record) =>
      var issues := Issues(record);
      if issues != [] then Risky(p.name, p.version, issues) else Healthy(p.name, p.version)
  }

  /** A failed fetch gives only the "could not fetch" line; otherwise a package is risky exactly when it has an issue. */
  lemma ClassifyRule(p: PackageRef, reply: Reply)
    ensures Classify(p, reply).Unfetched? <==> reply.FetchError?
    ensures reply.FetchError? ==> Classify(p, reply) == Unfetched(p.name)
    ensures Classify(p, reply).Risky? <==> reply.Fetched? && Issues(reply.record) != []
    ensures Classify(p, reply).Risky? ==> Classify(p, reply) == Risky(p.name, p.version, Issues(reply.record))
    ensures Classify(p, reply).Healthy? <==> reply.Fetched? && Issues(reply.record) == []
    ensures Classify(p, reply).Healthy? ==> Classify(p, reply) == Healthy(p.name, p.version)
  {
  }

  /** `executor.map(fetch_package, packages)`: one (package, reply) pair per package, in package order. */
  function FetchAll(platform: string, packages: seq<PackageRef>, registry: Registry): (results: seq<(PackageRef, Reply)>)
    ensures |results| == |packages|
    ensures forall i :: 0 <= i < |packages| ==> results[i] == (packages[i], registry(platform, packages[i].name))
  {
    seq(|packages|, i requires 0 <= i < |packages| => (packages[i], registry(platform, packages[i].name)))
  }

  /** The line of each fetch result, in result order. */
  function Classified(results: seq<(PackageRef, Reply)>): (ls: seq<HealthLine>)
    ensures |ls| == |results|
    ensures forall i :: 0 <= i < |results| ==> ls[i] == Classify(results[i].0, results[i].1)
  {
    seq(|results|, i requires 0 <= i < |results| => Classify(results[i].0, results[i].1))
  }

  // ---------------------------------------------------------------- one section

  predicate IsUnfetched(l: HealthLine) {
    l.Unfetched?
  }

  predicate IsRisky(l: HealthLine) {
    l.Risky?
  }

  predicate IsHealthy(l: HealthLine) {
    l.Healthy?
  }

  /** The lines of one section after its header: failures, then risky packages, then healthy ones. */
  function SectionBody(lines: seq<HealthLine>): seq<HealthLine> {
    Filter(lines, IsUnfetched) + Filter(lines, IsRisky) + Filter(lines, IsHealthy)
  }

  /** Within a section, the lines come group by group: failures, then risky, then healthy. */
  lemma SectionBodyGrouped(lines: seq<HealthLine>)
    ensures forall i, j :: 0 <= i < j < |SectionBody(lines)| ==>
      Group(SectionBody(lines)[i]) <= Group(SectionBody(lines)[j])
  {
    var u := Filter(lines, IsUnfetched);
    var r := Filter(lines, IsRisky);
    var h := Filter(lines, IsHealthy);
    var b := u + r + h;
    assert forall k :: 0 <= k < |b| ==>
      Group(b[k]) == if k < |u| then 1 else if k < |u| + |r| then 2 else 3;
  }

  /** The failures of a section are the failed fetches, in package order. */
  lemma SectionUnfetchedInOrder(lines: seq<HealthLine>)
    ensures Filter(SectionBody(lines), IsUnfetched) == Filter(lines, IsUnfetched)
  {
    var u := Filter(lines, IsUnfetched);
    var r := Filter(lines, IsRisky);
    var h := Filter(lines, IsHealthy);
    FilterConcat(u + r, h, IsUnfetched);
    FilterConcat(u, r, IsUnfetched);
    FilterKeepsAll(u, IsUnfetched);
    FilterDropsAll(r, IsUnfetched);
    FilterDropsAll(h, IsUnfetched);
    assert u + [] + [] == u;
  }

  /** The risky lines of a section are the risky packages, in package order. */
  lemma SectionRiskyInOrder(lines: seq<HealthLine>)
    ensures Filter(SectionBody(lines), IsRisky) == Filter(lines, IsRisky)
  {
    var u := Filter(lines, IsUnfetched);
    var r := Filter(lines, IsRisky);
    var h := Filter(lines, IsHealthy);
    FilterConcat(u + r, h, IsRisky);
    FilterConcat(u, r, IsRisky);
    FilterDropsAll(u, IsRisky);
    FilterKeepsAll(r, IsRisky);
    FilterDropsAll(h, IsRisky);
    assert [] + r + [] == r;
  }

  /** The healthy lines of a section are the healthy packages, in package order. */
  lemma SectionHealthyInOrder(lines: seq<HealthLine>)
    ensures Filter(SectionBody(lines), IsHealthy) == Filter(lines, IsHealthy)
  {
    var u := Filter(lines, IsUnfetched);
    var r := Filter(lines, IsRisky);
    var h := Filter(lines, IsHealthy);
    FilterConcat(u + r, h, IsHealthy);
    FilterConcat(u, r, IsHealthy);
    FilterDropsAll(u, IsHealthy);
    FilterDropsAll(r, IsHealthy);
    FilterKeepsAll(h, IsHealthy);
    assert [] + [] + h == h;
  }

  /** One more line joins the run of its own group. */
  lemma SectionStep(lines: seq<HealthLine>, i: nat)
    requires i < |lines|
    ensures Filter(lines[..i + 1], IsUnfetched) ==
      Filter(lines[..i], IsUnfetched) + (if lines[i].Unfetched? then [lines[i]] else [])
    ensures Filter(lines[..i + 1], IsRisky) ==
      Filter(lines[..i], IsRisky) + (if lines[i].Risky? then [lines[i]] else [])
    ensures Filter(lines[..i + 1], IsHealthy) ==
      Filter(lines[..i], IsHealthy) + (if lines[i].Healthy? then [lines[i]] else [])
  {
    FilterStep(lines, i, IsUnfetched);
    FilterStep(lines, i, IsRisky);
    FilterStep(lines, i, IsHealthy);
  }

  /** A section holds exactly the classified lines, each once: it is a rearrangement of them. */
  lemma SectionBodyPermutation(lines: seq<HealthLine>)
    requires forall k :: 0 <= k < |lines| ==> 1 <= Group(lines[k]) <= 3
    ensures multiset(SectionBody(lines)) == multiset(lines)
  {
    assert forall k :: 0 <= k < |lines| ==> ExactlyOne(IsUnfetched(lines[k]), IsRisky(lines[k]), IsHealthy(lines[k]));
    PartitionPermutation(lines, IsUnfetched, IsRisky, IsHealthy);
  }

  /** The lines of a manifest's section: its header, then the grouped lines of at most its first 20 packages. */
  function FileSection(filename: string, content: string, parse: string -> Option<Json>, registry: Registry)
    : seq<HealthLine>
  {
    match PlatformOf(filename)
    case None => []
    case Some(platform) =>
      var packages := Extracted(filename, content, parse);
      if packages == [] then []
      else [Header(filename, platform)] + SectionBody(Classified(FetchAll(platform, Take(packages, MaxChecked), registry)))
  }

  /** A manifest without a platform, or one that yields no packages, adds no section; otherwise its section starts with its header. */
  lemma FileSectionShape(filename: string, content: string, parse: string -> Option<Json>, registry: Registry)
    ensures FileSection(filename, content, parse, registry) == [] <==>
      PlatformOf(filename).None? || Extracted(filename, content, parse) == []
    ensures FileSection(filename, content, parse, registry) != [] ==>
      FileSection(filename, content, parse, registry)[0] == Header(filename, PlatformOf(filename).value)
  {
  }

  /** A manifest with a platform contributes its header and grouped lines, or nothing when it yields no packages. */
  lemma FileSectionOf(filename: string, content: string, parse: string -> Option<Json>, registry: Registry,
                      platform: string, packages: seq<PackageRef>)
    requires PlatformOf(filename) == Some(platform)
    requires packages == Extracted(filename, content, parse)
    ensures packages == [] ==> FileSection(filename, content, parse, registry) == []
    ensures packages != [] ==>
      FileSection(filename, content, parse, registry) ==
        [Header(filename, platform)] + SectionBody(Classified(FetchAll(platform, Take(packages, MaxChecked), registry)))
  {
  }

  /** An emitted section has one line per checked package after its header, and checks at most 20 packages in input order. */
  lemma FileSectionSize(filename: string, content: string, parse: string -> Option<Json>, registry: Registry)
    requires FileSection(filename, content, parse, registry) != []
    ensures |FileSection(filename, content, parse, registry)| ==
      1 + if |Extracted(filename, content, parse)| <= MaxChecked then |Extracted(filename, content, parse)| else MaxChecked
  {
    var platform := PlatformOf(filename).value;
    var lines := Classified(FetchAll(platform, Take(Extracted(filename, content, parse), MaxChecked), registry));
    SectionBodyPermutation(lines);
    assert |multiset(SectionBody(lines))| == |SectionBody(lines)|;
  }

  /** The lines of all sections, manifest by manifest. */
  function AllSections(docs: seq<(string, string)>, parse: string -> Option<Json>, registry: Registry): seq<HealthLine>
    decreases |docs|
  {
    if docs == [] then []
    else
      var last := docs[|docs| - 1];
      AllSections(docs[..|docs| - 1], parse, registry) + FileSection(last.0, last.1, parse, registry)
  }

  /** One more manifest appends its section: the step the file loop of `CheckDependencies` takes. */
  lemma AllSectionsStep(docs: seq<(string, string)>, d: nat, parse: string -> Option<Json>, registry: Registry)
    requires d < |docs|
    ensures AllSections(docs[..d + 1], parse, registry) ==
      AllSections(docs[..d], parse, registry) + FileSection(docs[d].0, docs[d].1, parse, registry)
  {
    PrefixStep(docs, d);
  }

  /** The sections of two runs of manifests are the sections of the first run followed by those of the second. */
  lemma {:induction false} AllSectionsConcat(a: seq<(string, string)>, b: seq<(string, string)>,
                                             parse: string -> Option<Json>, registry: Registry)
    ensures AllSections(a + b, parse, registry) == AllSections(a, parse, registry) + AllSections(b, parse, registry)
    decreases |b|
  {
    if b == [] {
      assert a + b == a;
    } else {
      var b' := b[..|b| - 1];
      var last := b[|b| - 1];
      ConcatInit(a, b);
      AllSectionsConcat(a, b', parse, registry);
      var x, y, z := AllSections(a, parse, registry), AllSections(b', parse, registry),
                     FileSection(last.0, last.1, parse, registry);
      assert AllSections(b, parse, registry) == y + z;
      assert AllSections(a + b, parse, registry) == x + y + z;
      ConcatAssoc(x, y, z);
    }
  }

  /**
   * Each manifest's section is one contiguous block of the report, after the
   * sections of the manifests found before it and before those found after it.
   */
  lemma AllSectionsBlock(docs: seq<(string, string)>, d: nat, parse: string -> Option<Json>, registry: Registry)
    requires d < |docs|
    ensures AllSections(docs, parse, registry) ==
      AllSections(docs[..d], parse, registry) + FileSection(docs[d].0, docs[d].1, parse, registry)
      + AllSections(docs[d + 1..], parse, registry)
  {
    SplitAt(docs, d);
    AllSectionsConcat(docs[..d] + [docs[d]], docs[d + 1..], parse, registry);
    AllSectionsConcat(docs[..d], [docs[d]], parse, registry);
    assert [docs[d]][..0] == [];
  }

  // ---------------------------------------------------------------- rendering

  function IssueText(i: Issue): string {
    match i
    case Deprecated => "DEPRECATED"
    case NoReleaseFor(m) => "no release in " + IntToString(m) + "mo"
    case FewContributors => "< 2 contributors"
  }

  function IssueTexts(issues: seq<Issue>): seq<string> {
    seq(|issues|, i requires 0 <= i < |issues| => IssueText(issues[i]))
  }

  /** The text of one line; the markers `?`, `[!]` and `[ok]` tell the groups apart. */
  function RenderLine(l: HealthLine): string {
    match l
    case Header(f, p) => "\n" + f + " (" + p + "):"
    case Unfetched(n) => "  ? " + (n + " — could not fetch info")
    case Risky(n, v, found) => "  [!] " + (n + " " + v + " — " + Join(IssueTexts(found), ", "))
    case Healthy(n, v) => "  [ok] " + (n + " " + v)
  }

  /** A line's marker names its group. */
  lemma RenderMarkers(l: HealthLine)
    ensures l.Unfetched? ==> StartsWith(RenderLine(l), "  ? ")
    ensures l.Risky? ==> StartsWith(RenderLine(l), "  [!] ")
    ensures l.Healthy? ==> StartsWith(RenderLine(l), "  [ok] ")
  {
    match l
    case Header(_, _) =>
    case Unfetched(n) => StartsWithConcat("  ? ", n + " — could not fetch info");
    case Risky(n, v, found) => StartsWithConcat("  [!] ", n + " " + v + " — " + Join(IssueTexts(found), ", "));
    case Healthy(n, v) => StartsWithConcat("  [ok] ", n + " " + v);
  }

  function RenderAll(ls: seq<HealthLine>): seq<string> {
    seq(|ls|, i requires 0 <= i < |ls| => RenderLine(ls[i]))
  }

  function NoFilesMessage(repo: string): string {
    "No package files found in '" + repo + "'.\nSupported: " + Join(ManifestNames, ", ")
  }

  function HealthTitle(repo: string): string {
    "Dependency health check for '" + repo + "':\n"
  }

  /**
   * What `check_dependencies` returns for the manifests `get_package_files`
   * found, in the order it found them.
   */
  function DependencyReport(repo: string, docs: seq<(string, string)>, parse: string -> Option<Json>,
                            registry: Registry): (r: string)
    ensures docs == [] ==> r == NoFilesMessage(repo)
    ensures docs != [] ==> StartsWith(r, HealthTitle(repo))
  {
    if docs == [] then NoFilesMessage(repo)
    else HealthTitle(repo) + Join(RenderAll(AllSections(docs, parse, registry)), "\n")
  }

  // ---------------------------------------------------------------- the loops

  /** Where one classified line goes: failures straight to the report, the others to their own list. */
  method Route(line: HealthLine, lines: seq<HealthLine>, risky: seq<HealthLine>, healthy: seq<HealthLine>)
    returns (lines': seq<HealthLine>, risky': seq<HealthLine>, healthy': seq<HealthLine>)
    ensures lines' == lines + (if line.Unfetched? then [line] else [])
    ensures risky' == risky + (if line.Risky? then [line] else [])
    ensures healthy' == healthy + (if line.Healthy? then [line] else [])
  {
    lines', risky', healthy' := lines, risky, healthy;
    if line.Unfetched? {
      lines' := lines + [line];
    } else if line.Risky? {
      risky' := risky + [line];
    } else if line.Healthy? {
      healthy' := healthy + [line];
    }
  }

  /** After `i` results: failures appended to the report, risky and healthy lines collected, each in order. */
  ghost predicate Placed(classified: seq<HealthLine>, i: nat, before: seq<HealthLine>,
                         lines: seq<HealthLine>, risky: seq<HealthLine>, healthy: seq<HealthLine>)
    requires i <= |classified|
  {
    && lines == before + Filter(classified[..i], IsUnfetched)
    && risky == Filter(classified[..i], IsRisky)
    && healthy == Filter(classified[..i], IsHealthy)
  }

  /** One more result keeps the lines placed: it joins the list of its own group. */
  lemma PlacedStep(classified: seq<HealthLine>, i: nat, before: seq<HealthLine>,
                   lines: seq<HealthLine>, risky: seq<HealthLine>, healthy: seq<HealthLine>)
    requires i < |classified|
    requires Placed(classified, i, before, lines, risky, healthy)
    ensures Placed(classified, i + 1, before,
                   lines + (if classified[i].Unfetched? then [classified[i]] else []),
                   risky + (if classified[i].Risky? then [classified[i]] else []),
                   healthy + (if classified[i].Healthy? then [classified[i]] else []))
  {
    SectionStep(classified, i);
  }

  /** Once every result is placed, the report holds the section body after what came before. */
  lemma PlacedAll(classified: seq<HealthLine>, before: seq<HealthLine>,
                  lines: seq<HealthLine>, risky: seq<HealthLine>, healthy: seq<HealthLine>)
    requires Placed(classified, |classified|, before, lines, risky, healthy)
    ensures lines + risky + healthy == before + SectionBody(classified)
  {
    PrefixWhole(classified);
  }

  /**
   * The loop over the fetch results of one section: failures are appended to
   * the report at once, risky and healthy lines are collected and appended after.
   */
  method AppendResults(results: seq<(PackageRef, Reply)>, before: seq<HealthLine>) returns (lines: seq<HealthLine>)
    ensures lines == before + SectionBody(Classified(results))
  {
    ghost var classified := Classified(results);
    lines := before;
    var risky: seq<HealthLine> := [];
    var healthy: seq<HealthLine> := [];
    var i := 0;
    while i < |results|
      invariant 0 <= i <= |results|
      invariant Placed(classified, i, before, lines, risky, healthy)
    {
      var line := Classify(results[i].0, results[i].1);
      assert line == classified[i];
      PlacedStep(classified, i, before, lines, risky, healthy);
      lines, risky, healthy := Route(line, lines, risky, healthy);
      i := i + 1;
    }
    PlacedAll(classified, before, lines, risky, healthy);
    lines := lines + risky + healthy;
  }

  /** One pass of the loop over the manifests: skip it, or append its header and its checked packages. */
  method AppendFile(filename: string, content: string, parse: string -> Option<Json>, registry: Registry,
                    before: seq<HealthLine>) returns (lines: seq<HealthLine>)
    ensures lines == before + FileSection(filename, content, parse, registry)
  {
    lines := before;
    var platform := PlatformOf(filename);
    if platform.None? {
      return;
    }
    var packages := ExtractPackages(filename, content, parse);
    FileSectionOf(filename, content, parse, registry, platform.value, packages);
    if packages == [] {
      return;
    }
    lines := lines + [Header(filename, platform.value)];
    packages := Take(packages, MaxChecked);
    var results := FetchAll(platform.value, packages, registry);
    lines := AppendResults(results, lines);
  }

  /** `check_dependencies` over the manifests found, as the source writes it: one pass over the files. */
  method CheckDependencies(repo: string, docs: seq<(string, string)>, parse: string -> Option<Json>, registry: Registry)
    returns (report: string)
    ensures report == DependencyReport(repo, docs, parse, registry)
  {
    if docs == [] {
      return NoFilesMessage(repo);
    }
    var allResults: seq<HealthLine> := [];
    var d := 0;
    while d < |docs|
      invariant 0 <= d <= |docs|
      invariant allResults == AllSections(docs[..d], parse, registry)
    {
      AllSectionsStep(docs, d, parse, registry);
      allResults := AppendFile(docs[d].0, docs[d].1, parse, registry, allResults);
      d := d + 1;
    }
    PrefixWhole(docs);
    report := HealthTitle(repo) + Join(RenderAll(allResults), "\n");
  }
}
