/**
 * tools/combined.py: `compare`, which decides whether each of two inputs is
 * a GitHub repository or a registry package, snapshots both and states
 * verdicts, and `audit_repo`'s normalisation of a repository argument.
 */
module Combined {
  import opened Wrappers
  import opened Seqs
  import opened Text
  import GitHub
  import Codebase
  import Packages
  import Manifest

  // ---------------------------------------------------------------- _is_repo

  /** A character of a name part in `^[\w.-]+/[\w.-]+$`; `word` is the regex class `\w`. */
  predicate SlugChar(word: char -> bool, c: char) {
    word(c) || c == '.' || c == '-'
  }

  /** One `[\w.-]+` run. */
  predicate SlugRun(word: char -> bool, s: string) {
    s != [] && forall i :: 0 <= i < |s| ==> SlugChar(word, s[i])
  }

  /** The regex test, computed by splitting at the first `/`. */
  predicate RepoShaped(t: string, word: char -> bool) {
    match IndexOf(t, "/")
    case None => false
    case Some(i) => SlugRun(word, t[..i]) && SlugRun(word, t[i + 1..])
  }

  /** `_is_repo`: a GitHub URL anywhere, or an `owner/name` shape after stripping. */
  predicate IsRepo(name: string, word: char -> bool) {
    var t := Strip(name);
    Contains(t, "github.com") || RepoShaped(t, word)
  }

  /**
   * As `\w` never matches `/`, the shape holds exactly when the text has one
   * `/`, neither first nor last, and every other character is a word
   * character, `.` or `-`.
   */
  lemma RepoShapedRule(t: string, word: char -> bool)
    requires !word('/')
    ensures RepoShaped(t, word) <==>
      exists i :: 0 < i < |t| - 1 && t[i] == '/' && forall j :: 0 <= j < |t| && j != i ==> SlugChar(word, t[j])
  {
    if RepoShaped(t, word) {
      var i := IndexOf(t, "/").value;
      assert t[i..i + 1] == "/";
      assert t[i] == '/';
      forall j | 0 <= j < |t| && j != i
        ensures SlugChar(word, t[j])
      {
        if j < i {
          assert t[..i][j] == t[j];
        } else {
          assert t[i + 1..][j - i - 1] == t[j];
        }
      }
    }
    if exists i :: 0 < i < |t| - 1 && t[i] == '/' && forall j :: 0 <= j < |t| && j != i ==> SlugChar(word, t[j]) {
      var i :| 0 < i < |t| - 1 && t[i] == '/' && forall j :: 0 <= j < |t| && j != i ==> SlugChar(word, t[j]);
      assert t[i..i + 1] == "/";
      assert OccursAt(t, "/", i);
      var k := IndexOf(t, "/").value;
      assert t[k..k + 1] == "/";
      assert t[k] == '/';
      assert k == i;
      var left, right := t[..i], t[i + 1..];
      forall j | 0 <= j < |right|
        ensures SlugChar(word, right[j])
      {
        assert right[j] == t[i + 1 + j];
      }
      forall j | 0 <= j < |left|
        ensures SlugChar(word, left[j])
      {
        assert left[j] == t[j];
      }
    }
  }

  /** Any input mentioning `github.com` counts as a repository, whatever else it holds. */
  lemma IsRepoUrl(name: string, word: char -> bool)
    requires Contains(Strip(name), "github.com")
    ensures IsRepo(name, word)
  {
  }

  // ---------------------------------------------------------------- _guess_platform

  /** The registry search reply `_guess_platform` reads: an error or empty body, or the hits' `platform` fields. */
  datatype PlatformHits = NoHits | Hits(platforms: seq<Option<string>>)

  /** The registry search for a name, with `per_page` 1. */
  type PlatformSearch = string -> PlatformHits

  const DefaultPlatform: string := "npm"

  /** `_guess_platform`: the top hit's platform, lowercased, or `npm`. */
  function GuessPlatform(name: string, search: PlatformSearch): string {
    match search(name)
    case NoHits => DefaultPlatform
    case Hits(ps) => if ps != [] then Lower(ps[0].GetOr(DefaultPlatform)) else DefaultPlatform
  }

  lemma LowerIdempotent(s: string)
    ensures Lower(Lower(s)) == Lower(s)
  {
  }

  /** With no hit the guess is `npm`; otherwise it is the top hit's platform, and always in lower case. */
  lemma GuessPlatformRule(name: string, search: PlatformSearch)
    ensures search(name) == NoHits || search(name) == Hits([]) ==> GuessPlatform(name, search) == "npm"
    ensures search(name).Hits? && search(name).platforms != [] ==>
      GuessPlatform(name, search) == Lower(search(name).platforms[0].GetOr("npm"))
    ensures Lower(GuessPlatform(name, search)) == GuessPlatform(name, search)
  {
    assert Lower(DefaultPlatform) == DefaultPlatform;
    if search(name).Hits? && search(name).platforms != [] {
      LowerIdempotent(search(name).platforms[0].GetOr(DefaultPlatform));
    }
  }

  // ---------------------------------------------------------------- snapshots

  /** The fields of the registry's package body that `_package_snapshot` reads; `None` is a missing key. */
  datatype PackageData = PackageData(
    name: Option<string>, description: Option<string>, stars: Option<int>, forks: Option<int>,
    openIssues: Option<int>, contributors: Option<int>, latestVersion: Option<string>,
    published: Option<string>, deprecated: Option<bool>, homepage: Option<string>)

  /** `_api_get(f"{platform}/{name}")`, given the platform and the name; `None` is an error or empty body. */
  type PackageApi = (string, string) -> Option<PackageData>

  /** The fields only one kind of snapshot has. */
  datatype Extra =
    | RepoFields(language: string, license: string, topics: seq<string>)
    | PackageFields(contributors: int, latestVersion: string, months: Option<int>, deprecated: bool, homepage: string)

  /** A snapshot dictionary: the error dictionary, or the fields both kinds share and the kind's own. */
  datatype Snapshot =
    | SnapError(error: string)
    | Snap(name: string, platform: string, description: string, stars: int, forks: int, openIssues: int, extra: Extra)

  /** `_package_snapshot`; `monthsSince` is `_months_since`, which reads the clock. */
  function PackageSnapshot(name: string, platform: string, api: PackageApi, monthsSince: string -> Option<int>): Snapshot {
    match api(platform, name)
    case None => SnapError("Could not find '" + name + "' on " + platform)
    case Some(d) =>
      Snap(d.name.GetOr(name), platform, d.description.GetOr("N/A"), d.stars.GetOr(0), d.forks.GetOr(0),
           d.openIssues.GetOr(0),
           PackageFields(d.contributors.GetOr(0), d.latestVersion.GetOr("N/A"), monthsSince(d.published.GetOr("")),
                         d.deprecated.GetOr(false), d.homepage.GetOr("N/A")))
  }

  /** `_repo_snapshot`'s slug: the stripped input, or the text after the last `github.com/` with `/` stripped from both ends. */
  function RepoSlug(repo: string): string {
    var t := Strip(repo);
    if Contains(t, Host) then StripChar(LastPiece(t, Host), '/') else t
  }

  /** `_repo_snapshot`; `get_repo_info`'s fields are always present, so a missing value prints as `None`. */
  function RepoSnapshot(repo: string, api: GitHub.RepoApi): Snapshot {
    match GitHub.GetRepoInfo(RepoSlug(repo), api)
    case RepoError(e) => SnapError(e)
    case RepoInfo(name, description, language, stars, forks, openIssues, _, topics, license) =>
      Snap(Codebase.Shown(name), "github", Codebase.Shown(description), stars, forks, openIssues,
           RepoFields(Codebase.Shown(language), Codebase.Shown(license), topics))
  }

  /** A lookup that fails gives the "Could not find" error; a found package keeps the platform it was looked up on. */
  lemma PackageSnapshotRule(name: string, platform: string, api: PackageApi, monthsSince: string -> Option<int>)
    ensures api(platform, name).None? <==> PackageSnapshot(name, platform, api, monthsSince).SnapError?
    ensures api(platform, name).None? ==>
      PackageSnapshot(name, platform, api, monthsSince).error == "Could not find '" + name + "' on " + platform
    ensures api(platform, name).Some? ==>
      var s := PackageSnapshot(name, platform, api, monthsSince);
      s.platform == platform && s.extra.PackageFields?
      && s.stars == api(platform, name).value.stars.GetOr(0)
      && (api(platform, name).value.name.None? ==> s.name == name)
  {
  }

  /** A repository snapshot is the error passed on, or a `github` snapshot with the repository's fields. */
  lemma RepoSnapshotRule(repo: string, api: GitHub.RepoApi)
    ensures api(RepoSlug(repo)).ApiError? ==> RepoSnapshot(repo, api) == SnapError(api(RepoSlug(repo)).message)
    ensures api(RepoSlug(repo)).Ok? ==>
      var s := RepoSnapshot(repo, api);
      s.Snap? && s.platform == "github" && s.extra.RepoFields?
      && s.stars == api(RepoSlug(repo)).body.stars && s.extra.topics == api(RepoSlug(repo)).body.topics
  {
    GitHub.RepoInfoRule(RepoSlug(repo), api);
  }

  /** Appending to text without `p` cannot create `p` unless the appended text holds `p`'s last character. */
  lemma NoOccursAppend(s: string, p: string, t: string)
    requires p != [] && !Occurs(s, p) && p[|p| - 1] !in t
    ensures !Occurs(s + t, p)
  {
    var st := s + t;
    forall j | 0 <= j && j + |p| <= |st|
      ensures !OccursAt(st, p, j)
    {
      if j + |p| <= |s| {
        assert st[j..j + |p|] == s[j..j + |p|];
        assert !OccursAt(s, p, j);
      } else {
        assert st[j + |p| - 1] == t[j + |p| - 1 - |s|];
        assert st[j..j + |p|][|p| - 1] == st[j + |p| - 1];
      }
    }
  }

  /** What does not occur in `s + t` does not occur in `s`. */
  lemma NoOccursPrefix(s: string, t: string, p: string)
    requires !Occurs(s + t, p)
    ensures !Occurs(s, p)
  {
    var st := s + t;
    forall j | OccursAt(s, p, j)
      ensures OccursAt(st, p, j)
    {
      assert st[j..j + |p|] == s[j..j + |p|];
    }
  }

  /** A repository URL's scheme and host, as users paste them. */
  const Scheme: string := "https://"
  const Host: string := "github.com/"

  /** In a URL, the slug is what follows `github.com/`, when the slug itself does not mention it. */
  lemma UrlLastPiece(rest: string)
    requires !Occurs(rest, Host)
    ensures Contains(Scheme + Host + rest, Host)
    ensures LastPiece(Scheme + Host + rest, Host) == rest
  {
    var t := Scheme + Host + rest;
    IndexAfterPrefix(Scheme, Host, rest);
    assert t[|Scheme| + |Host|..] == rest;
    assert IndexOf(rest, Host).None?;
  }

  /** A URL with a visible end is left alone by `strip()`. */
  lemma StripUrl(rest: string)
    requires rest != [] && !IsSpace(rest[|rest| - 1])
    ensures Strip(Scheme + Host + rest) == Scheme + Host + rest
  {
    var t := Scheme + Host + rest;
    assert t[0] == 'h';
    assert t[|t| - 1] == rest[|rest| - 1];
    StripByFixed(t, IsSpace);
  }

  /**
   * `_repo_snapshot` recovers the slug from a pasted URL, with or without a
   * trailing `/`, and takes a plain slug as it is.
   */
  lemma RepoSlugRecovers(slug: string)
    requires slug != [] && slug[0] != '/' && slug[|slug| - 1] != '/'
    requires !IsSpace(slug[0]) && !IsSpace(slug[|slug| - 1]) && !Occurs(slug + "/", Host)
    ensures RepoSlug(Scheme + Host + slug) == slug
    ensures RepoSlug(Scheme + Host + (slug + "/")) == slug
    ensures RepoSlug(slug) == slug
  {
    NoOccursPrefix(slug, "/", Host);
    assert RepoSlug(Scheme + Host + slug) == slug by {
      RepoSlugOfUrl(slug);
      StripCharFixed(slug, '/');
    }
    assert RepoSlug(Scheme + Host + (slug + "/")) == slug by {
      RepoSlugOfUrl(slug + "/");
      StripCharOneTrailing(slug, '/');
    }
    assert Strip(slug) == slug by {
      StripByFixed(slug, IsSpace);
    }
  }

  /** The slug `_repo_snapshot` takes from a URL is what follows the host, with its slashes stripped. */
  lemma RepoSlugOfUrl(rest: string)
    requires rest != [] && !IsSpace(rest[|rest| - 1]) && !Occurs(rest, Host)
    ensures RepoSlug(Scheme + Host + rest) == StripChar(rest, '/')
  {
    UrlLastPiece(rest);
    StripUrl(rest);
  }

  // ---------------------------------------------------------------- _format_snapshot

  const ActiveMonths: int := 12

  /** The maintenance status of a package whose last release is `months` old. */
  function Maintenance(months: int): string {
    if months < ActiveMonths then "Active" else "No release in " + IntToString(months) + " months"
  }

  lemma MaintenanceRule(months: int)
    ensures Maintenance(months) == "Active" <==> months < 12
  {
    if months >= 12 {
      assert Maintenance(months)[0] == 'N';
    }
  }

  /** The lines every snapshot has: its title and the three counts. */
  function CommonLines(s: Snapshot): seq<string>
    requires s.Snap?
  {
    [s.name + " (" + s.platform + ")",
     "  Description : " + s.description,
     "  Stars       : " + IntToString(s.stars),
     "  Forks       : " + IntToString(s.forks),
     "  Open issues : " + IntToString(s.openIssues)]
  }

  /** The lines of the `github` branch; a package looked up on a platform named `github` has none of the fields and shows the defaults. */
  function GithubLines(e: Extra): seq<string> {
    var language := if e.RepoFields? then e.language else "N/A";
    var license := if e.RepoFields? then e.license else "N/A";
    var topics := if e.RepoFields? then e.topics else [];
    ["  Language    : " + language] + ["  License     : " + license]
    + (if topics != [] then ["  Topics      : " + Join(topics, ", ")] else [])
  }

  /** The lines of the package branch, with the defaults of `snap.get` for a snapshot that lacks them. */
  function PackageLines(e: Extra): seq<string> {
    var contributors := if e.PackageFields? then e.contributors else 0;
    var latest := if e.PackageFields? then e.latestVersion else "N/A";
    var months := if e.PackageFields? then e.months else None;
    var deprecated := e.PackageFields? && e.deprecated;
    var homepage := if e.PackageFields? then e.homepage else "N/A";
    PackageFieldLines(contributors, latest, months, deprecated, homepage)
  }

  /** The package block, from the values `_format_snapshot` reads (or defaults). */
  function PackageFieldLines(contributors: int, latest: string, months: Option<int>, deprecated: bool,
                             homepage: string): seq<string> {
    ["  Contributors: " + IntToString(contributors)] + ["  Latest ver  : " + latest]
    + (if months.Some? then ["  Maintenance : " + Maintenance(months.value)] else [])
    + (if deprecated then ["  Status      : DEPRECATED"] else [])
    + ["  Homepage    : " + homepage]
  }

  /** The lines `_format_snapshot` collects for a snapshot that is not an error. */
  function SnapshotLines(s: Snapshot): seq<string>
    requires s.Snap?
  {
    CommonLines(s) + (if s.platform == "github" then GithubLines(s.extra) else PackageLines(s.extra))
  }

  /** What `_format_snapshot` returns. */
  function SnapshotText(s: Snapshot): string {
    match s
    case SnapError(e) => "Error: " + e
    case Snap(_, _, _, _, _, _, _) => Join(SnapshotLines(s), "\n")
  }

  /** A repository snapshot has Language and License lines, and a Topics line only when it has topics. */
  lemma GithubLinesRule(s: Snapshot)
    requires s.Snap? && s.platform == "github" && s.extra.RepoFields?
    ensures |SnapshotLines(s)| == (if s.extra.topics == [] then 7 else 8)
    ensures SnapshotLines(s)[5] == "  Language    : " + s.extra.language
    ensures SnapshotLines(s)[6] == "  License     : " + s.extra.license
    ensures s.extra.topics != [] ==> SnapshotLines(s)[7] == "  Topics      : " + Join(s.extra.topics, ", ")
  {
  }

  /**
   * A package snapshot has a Maintenance line exactly when its age is known,
   * reading "Active" exactly when it is under twelve months, then a
   * DEPRECATED line exactly when it is deprecated, and ends with its homepage.
   */
  lemma PackageLinesRule(s: Snapshot)
    requires s.Snap? && s.platform != "github" && s.extra.PackageFields?
    ensures var known := if s.extra.months.Some? then 1 else 0;
      var flagged := if s.extra.deprecated then 1 else 0;
      |SnapshotLines(s)| == 8 + known + flagged
      && (s.extra.months.Some? ==> SnapshotLines(s)[7] == "  Maintenance : " + Maintenance(s.extra.months.value))
      && (s.extra.deprecated ==> SnapshotLines(s)[7 + known] == "  Status      : DEPRECATED")
      && SnapshotLines(s)[7 + known + flagged] == "  Homepage    : " + s.extra.homepage
    ensures s.extra.months.Some? ==> (Maintenance(s.extra.months.value) == "Active" <==> s.extra.months.value < 12)
  {
    if s.extra.months.Some? {
      MaintenanceRule(s.extra.months.value);
    }
  }

  /** Every snapshot's text opens with its title, or is the single error line. */
  lemma SnapshotTextRule(s: Snapshot)
    ensures s.SnapError? ==> SnapshotText(s) == "Error: " + s.error
    ensures s.Snap? ==> StartsWith(SnapshotText(s), s.name + " (" + s.platform + ")")
  {
    if s.Snap? {
      JoinHead(SnapshotLines(s), "\n");
    }
  }

  /** `_format_snapshot`: the lines appended one at a time, then joined. */
  method FormatSnapshot(s: Snapshot) returns (text: string)
    ensures text == SnapshotText(s)
  {
    if s.SnapError? {
      return "Error: " + s.error;
    }
    var lines := [s.name + " (" + s.platform + ")"];
    lines := lines + ["  Description : " + s.description];
    lines := lines + ["  Stars       : " + IntToString(s.stars)];
    lines := lines + ["  Forks       : " + IntToString(s.forks)];
    lines := lines + ["  Open issues : " + IntToString(s.openIssues)];
    assert lines == CommonLines(s);
    if s.platform == "github" {
      lines := AppendGithubLines(lines, s.extra);
    } else {
      lines := AppendPackageLines(lines, s.extra);
    }
    text := Join(lines, "\n");
  }

  /** The repository block of `_format_snapshot`, appended line by line. */
  method AppendGithubLines(head: seq<string>, e: Extra) returns (lines: seq<string>)
    ensures lines == head + GithubLines(e)
  {
    lines := head;
    ghost var tail: seq<string> := [];
    lines, tail := Push(head, lines, tail, "  Language    : " + (if e.RepoFields? then e.language else "N/A"));
    lines, tail := Push(head, lines, tail, "  License     : " + (if e.RepoFields? then e.license else "N/A"));
    var topics := if e.RepoFields? then e.topics else [];
    if topics != [] {
      lines, tail := Push(head, lines, tail, "  Topics      : " + Join(topics, ", "));
    }
    assert tail == GithubLines(e);
  }

  /** The package block of `_format_snapshot`, appended line by line. */
  method AppendPackageLines(head: seq<string>, e: Extra) returns (lines: seq<string>)
    ensures lines == head + PackageLines(e)
  {
    lines := head;
    ghost var tail: seq<string> := [];
    var contributors := if e.PackageFields? then e.contributors else 0;
    var latest := if e.PackageFields? then e.latestVersion else "N/A";
    var months := if e.PackageFields? then e.months else None;
    var deprecated := e.PackageFields? && e.deprecated;
    var homepage := if e.PackageFields? then e.homepage else "N/A";
    lines, tail := Push(head, lines, tail, "  Contributors: " + IntToString(contributors));
    lines, tail := Push(head, lines, tail, "  Latest ver  : " + latest);
    assert tail == ["  Contributors: " + IntToString(contributors)] + ["  Latest ver  : " + latest];
    ghost var known := tail;
    if months.Some? {
      lines, tail := Push(head, lines, tail, "  Maintenance : " + Maintenance(months.value));
    }
    assert tail == known + (if months.Some? then ["  Maintenance : " + Maintenance(months.value)] else []);
    known := tail;
    if deprecated {
      lines, tail := Push(head, lines, tail, "  Status      : DEPRECATED");
    }
    assert tail == known + (if deprecated then ["  Status      : DEPRECATED"] else []);
    lines, tail := Push(head, lines, tail, "  Homepage    : " + homepage);
    assert tail == PackageFieldLines(contributors, latest, months, deprecated, homepage);
  }

  /** `lines.append(line)`, keeping track of what was appended after `head`. */
  method Push(ghost head: seq<string>, lines: seq<string>, ghost tail: seq<string>, line: string)
    returns (lines': seq<string>, ghost tail': seq<string>)
    requires lines == head + tail
    ensures lines' == lines + [line] && tail' == tail + [line]
    ensures lines' == head + tail'
  {
    lines' := lines + [line];
    tail' := tail + [line];
    ConcatAssoc(head, tail, [line]);
  }

  // ---------------------------------------------------------------- compare

  datatype Mode = PackageMode | RepoMode | MixedMode

  /** How one input is looked up. */
  datatype Target = AsPackage(name: string, platform: string) | AsRepo(slug: string)

  /** The lookups and the mode `compare` chooses. */
  datatype Plan = Plan(first: Target, second: Target, mode: Mode)

  /** An input resolved by its own shape, as in the mixed case. */
  function Resolve(item: string, word: char -> bool, search: PlatformSearch): Target {
    if IsRepo(item, word) then AsRepo(item) else AsPackage(item, GuessPlatform(item, search))
  }

  /** The four-way dispatch of `compare`. */
  function Dispatch(item1: string, item2: string, platform: Option<string>, word: char -> bool,
                    search: PlatformSearch): Plan {
    if platform.Some? && platform.value != "" then
      Plan(AsPackage(item1, platform.value), AsPackage(item2, platform.value), PackageMode)
    else if IsRepo(item1, word) && IsRepo(item2, word) then
      Plan(AsRepo(item1), AsRepo(item2), RepoMode)
    else if !IsRepo(item1, word) && !IsRepo(item2, word) then
      Plan(AsPackage(item1, GuessPlatform(item1, search)), AsPackage(item2, GuessPlatform(item2, search)), PackageMode)
    else
      Plan(Resolve(item1, word, search), Resolve(item2, word, search), MixedMode)
  }

  /**
   * A platform hint makes both inputs packages on it, whatever their shape;
   * without one, two repositories are compared as such, two packages on
   * their guessed platforms, and a repository and a package each by its own
   * shape in the mixed mode. Package mode always looks up two packages.
   */
  lemma DispatchRule(item1: string, item2: string, platform: Option<string>, word: char -> bool, search: PlatformSearch)
    ensures var p := Dispatch(item1, item2, platform, word, search);
      (platform.Some? && platform.value != "" ==>
         p == Plan(AsPackage(item1, platform.value), AsPackage(item2, platform.value), PackageMode))
      && (!(platform.Some? && platform.value != "") ==>
         (p.mode == RepoMode <==> IsRepo(item1, word) && IsRepo(item2, word))
         && (p.mode == MixedMode <==> IsRepo(item1, word) != IsRepo(item2, word))
         && p.first == Resolve(item1, word, search) && p.second == Resolve(item2, word, search))
      && (p.mode == PackageMode ==> p.first.AsPackage? && p.second.AsPackage?)
      && (p.mode == RepoMode ==> p.first.AsRepo? && p.second.AsRepo?)
  {
  }

  function SnapshotOf(t: Target, packages: PackageApi, monthsSince: string -> Option<int>, repos: GitHub.RepoApi): Snapshot {
    match t
    case AsPackage(name, platform) => PackageSnapshot(name, platform, packages, monthsSince)
    case AsRepo(slug) => RepoSnapshot(slug, repos)
  }

  /** `snap.get("months_since_release")`: only package snapshots carry it. */
  function MonthsOf(s: Snapshot): Option<int> {
    if s.Snap? && s.extra.PackageFields? then s.extra.months else None
  }

  /** The verdict lines, after the two snapshots. */
  function Verdicts(item1: string, item2: string, s1: Snapshot, s2: Snapshot, mode: Mode): seq<string> {
    if s1.Snap? && s2.Snap? then
      ["More popular        : " + (if s1.stars >= s2.stars then item1 else item2)]
      + (if mode == PackageMode && MonthsOf(s1).Some? && MonthsOf(s2).Some? then
           ["More recently updated: " + (if MonthsOf(s1).value <= MonthsOf(s2).value then item1 else item2)]
         else [])
    else []
  }

  /**
   * The popularity verdict is given exactly when neither snapshot is an
   * error, and a tie goes to the first item; the recency verdict is given
   * exactly when, in addition, the mode is package mode and both ages are
   * known, and a tie goes to the first item too. The mixed mode never has it.
   */
  lemma VerdictsRule(item1: string, item2: string, s1: Snapshot, s2: Snapshot, mode: Mode)
    ensures var v := Verdicts(item1, item2, s1, s2, mode);
      (v != [] <==> s1.Snap? && s2.Snap?)
      && (|v| == 2 <==> s1.Snap? && s2.Snap? && mode == PackageMode && MonthsOf(s1).Some? && MonthsOf(s2).Some?)
      && (mode == MixedMode ==> |v| <= 1)
      && (v != [] && s1.stars >= s2.stars ==> v[0] == "More popular        : " + item1)
      && (v != [] && s1.stars < s2.stars ==> v[0] == "More popular        : " + item2)
      && (|v| == 2 && MonthsOf(s1).value <= MonthsOf(s2).value ==> v[1] == "More recently updated: " + item1)
      && (|v| == 2 && MonthsOf(s1).value > MonthsOf(s2).value ==> v[1] == "More recently updated: " + item2)
  {
  }

  /** The heading of a comparison. */
  function Heading(item1: string, item2: string): string {
    "Comparing: " + item1 + " vs " + item2 + "\n" + Repeat('=', 40)
  }

  /** The lines of `out`. */
  function CompareLines(item1: string, item2: string, s1: Snapshot, s2: Snapshot, mode: Mode): seq<string> {
    ReportLines(Heading(item1, item2), SnapshotText(s1), SnapshotText(s2), Verdicts(item1, item2, s1, s2, mode))
  }

  /** The heading, the two snapshots between rules, and the verdicts. */
  function ReportLines(heading: string, first: string, second: string, verdicts: seq<string>): seq<string> {
    [heading, first, Repeat('─', 40), second, Repeat('=', 40)] + verdicts
  }

  /** Both snapshots are always shown, the first item's first and each between rules, errors included. */
  lemma CompareLinesRule(item1: string, item2: string, s1: Snapshot, s2: Snapshot, mode: Mode)
    ensures var lines := CompareLines(item1, item2, s1, s2, mode);
      5 <= |lines| <= 7 && |lines| == 5 + |Verdicts(item1, item2, s1, s2, mode)|
      && lines[0] == Heading(item1, item2)
      && lines[1] == SnapshotText(s1) && lines[3] == SnapshotText(s2)
  {
    var v := Verdicts(item1, item2, s1, s2, mode);
    assert |v| <= 2;
    ReportLinesRule(Heading(item1, item2), SnapshotText(s1), SnapshotText(s2), v);
  }

  lemma ReportLinesRule(heading: string, first: string, second: string, verdicts: seq<string>)
    ensures var lines := ReportLines(heading, first, second, verdicts);
      |lines| == 5 + |verdicts| && lines[0] == heading && lines[1] == first && lines[3] == second
      && lines[5..] == verdicts
  {
  }

  /** What `compare` returns. */
  function CompareText(item1: string, item2: string, platform: Option<string>, word: char -> bool, search: PlatformSearch,
                       packages: PackageApi, monthsSince: string -> Option<int>, repos: GitHub.RepoApi): string {
    var plan := Dispatch(item1, item2, platform, word, search);
    var s1 := SnapshotOf(plan.first, packages, monthsSince, repos);
    var s2 := SnapshotOf(plan.second, packages, monthsSince, repos);
    Join(CompareLines(item1, item2, s1, s2, plan.mode), "\n")
  }

  /** `compare`: dispatch, snapshot both items, and append the formatted snapshots and the verdicts to `out`. */
  method Compare(item1: string, item2: string, platform: Option<string>, word: char -> bool, search: PlatformSearch,
                 packages: PackageApi, monthsSince: string -> Option<int>, repos: GitHub.RepoApi)
    returns (text: string)
    ensures text == CompareText(item1, item2, platform, word, search, packages, monthsSince, repos)
  {
    var s1, s2, mode;
    if platform.Some? && platform.value != "" {
      s1 := PackageSnapshot(item1, platform.value, packages, monthsSince);
      s2 := PackageSnapshot(item2, platform.value, packages, monthsSince);
      mode := PackageMode;
    } else if IsRepo(item1, word) && IsRepo(item2, word) {
      s1 := RepoSnapshot(item1, repos);
      s2 := RepoSnapshot(item2, repos);
      mode := RepoMode;
    } else if !IsRepo(item1, word) && !IsRepo(item2, word) {
      s1 := PackageSnapshot(item1, GuessPlatform(item1, search), packages, monthsSince);
      s2 := PackageSnapshot(item2, GuessPlatform(item2, search), packages, monthsSince);
      mode := PackageMode;
    } else {
      s1 := if IsRepo(item1, word) then RepoSnapshot(item1, repos)
            else PackageSnapshot(item1, GuessPlatform(item1, search), packages, monthsSince);
      s2 := if IsRepo(item2, word) then RepoSnapshot(item2, repos)
            else PackageSnapshot(item2, GuessPlatform(item2, search), packages, monthsSince);
      mode := MixedMode;
    }
    var plan := Dispatch(item1, item2, platform, word, search);
    assert s1 == SnapshotOf(plan.first, packages, monthsSince, repos);
    assert s2 == SnapshotOf(plan.second, packages, monthsSince, repos);
    assert mode == plan.mode;
    text := CompareReport(item1, item2, s1, s2, mode);
  }

  /** The second half of `compare`: the two formatted snapshots between rules, then the verdicts. */
  method CompareReport(item1: string, item2: string, s1: Snapshot, s2: Snapshot, mode: Mode) returns (text: string)
    ensures text == Join(CompareLines(item1, item2, s1, s2, mode), "\n")
  {
    var first := FormatSnapshot(s1);
    var second := FormatSnapshot(s2);
    var heading := Heading(item1, item2);
    var out := [heading, first, Repeat('─', 40), second, Repeat('=', 40)];
    out := AppendVerdicts(out, item1, item2, s1, s2, mode);
    assert out == ReportLines(heading, first, second, Verdicts(item1, item2, s1, s2, mode));
    text := Join(out, "\n");
  }

  /** The verdict lines of `compare`, appended after `head`. */
  method AppendVerdicts(head: seq<string>, item1: string, item2: string, s1: Snapshot, s2: Snapshot, mode: Mode)
    returns (out: seq<string>)
    ensures out == head + Verdicts(item1, item2, s1, s2, mode)
  {
    out := head;
    ghost var tail: seq<string> := [];
    if s1.Snap? && s2.Snap? {
      var winnerStars := if s1.stars >= s2.stars then item1 else item2;
      out, tail := Push(head, out, tail, "More popular        : " + winnerStars);
      if mode == PackageMode {
        var m1 := MonthsOf(s1);
        var m2 := MonthsOf(s2);
        if m1.Some? && m2.Some? {
          out, tail := Push(head, out, tail, "More recently updated: " + (if m1.value <= m2.value then item1 else item2));
        }
      }
    }
    assert tail == Verdicts(item1, item2, s1, s2, mode);
  }

  // ---------------------------------------------------------------- audit_repo

  /** `s.endswith(".git")` and the slug without it. */
  function DropGitSuffix(s: string): string {
    if EndsWith(s, ".git") then s[..|s| - 4] else s
  }

  /** `audit_repo`'s slug as the source computes it: every `.git` is removed from the text after the last `github.com/`. */
  function AuditSlugAsWritten(repo: string): string {
    var t := RStripChar(Strip(repo), '/');
    if Contains(t, Host) then RemoveAll(LastPiece(t, Host), ".git") else t
  }

  /** `audit_repo`'s slug as intended: only a trailing `.git` suffix of a clone URL is dropped. */
  function AuditSlug(repo: string): string {
    var t := RStripChar(Strip(repo), '/');
    if Contains(t, Host) then DropGitSuffix(LastPiece(t, Host)) else t
  }

  /** `rstrip("/")` of text that does not end with `/`. */
  lemma RStripKeeps(s: string)
    requires s != [] && s[|s| - 1] != '/'
    ensures RStripChar(s, '/') == s
  {
  }

  /** The slug of a URL, for both readings. */
  lemma AuditSlugOfUrl(rest: string)
    requires rest != [] && rest[|rest| - 1] != '/' && !IsSpace(rest[|rest| - 1]) && !Occurs(rest, Host)
    ensures AuditSlugAsWritten(Scheme + Host + rest) == RemoveAll(rest, ".git")
    ensures AuditSlug(Scheme + Host + rest) == DropGitSuffix(rest)
  {
    StripUrl(rest);
    var t := Scheme + Host + rest;
    assert t[|t| - 1] == rest[|rest| - 1];
    RStripKeeps(t);
    UrlLastPiece(rest);
  }

  /** A slug ending in `.git` loses exactly that suffix. */
  lemma DropGitSuffixOf(slug: string)
    ensures DropGitSuffix(slug + ".git") == slug
  {
    var g := slug + ".git";
    assert g[|g| - 4..] == ".git";
    assert g[..|g| - 4] == slug;
  }

  /**
   * The intended slug is recovered from a repository URL, with or without the
   * `.git` of a clone URL, and from a plain slug.
   */
  lemma AuditSlugRecovers(slug: string)
    requires slug != [] && slug[|slug| - 1] != '/' && !IsSpace(slug[0]) && !IsSpace(slug[|slug| - 1])
    requires !Occurs(slug, Host) && !EndsWith(slug, ".git")
    ensures AuditSlug(Scheme + Host + slug) == slug
    ensures AuditSlug(Scheme + Host + (slug + ".git")) == slug
    ensures AuditSlug(slug) == slug
  {
    assert AuditSlug(Scheme + Host + slug) == slug by {
      AuditSlugOfUrl(slug);
    }
    assert AuditSlug(Scheme + Host + (slug + ".git")) == slug by {
      NoOccursAppend(slug, Host, ".git");
      var g := slug + ".git";
      assert g[|g| - 1] == 't';
      AuditSlugOfUrl(g);
      DropGitSuffixOf(slug);
    }
    assert AuditSlug(slug) == slug by {
      StripByFixed(slug, IsSpace);
      RStripKeeps(slug);
    }
  }

  /** A user-pages repository, whose name contains `.github`. */
  const PagesOwner: string := "octocat/octocat"
  const PagesTail: string := "hub.io"

  function PagesSlug(): string {
    PagesOwner + ".git" + PagesTail
  }

  lemma PagesSlugNoHost()
    ensures !Occurs(PagesSlug(), Host)
  {
    var s := PagesSlug();
    forall j | 0 <= j && j + |Host| <= |s|
      ensures !OccursAt(s, Host, j)
    {
      assert s[j..j + |Host|][10] == s[j + 10];
      assert s[j + 10] != '/';
    }
  }

  lemma PagesSlugRemoved()
    ensures RemoveAll(PagesSlug(), ".git") == PagesOwner + PagesTail
  {
    forall j | 0 <= j && j + 4 <= |PagesTail|
      ensures !OccursAt(PagesTail, ".git", j)
    {
      assert PagesTail[j..j + 4][0] == PagesTail[j];
    }
    RemoveAllOnce(PagesOwner, ".git", PagesTail);
  }

  /**
   * The source's `replace(".git", "")` mangles the URL of a repository whose
   * name contains `.git`, while the intended normalisation recovers its slug.
   */
  lemma AuditSlugMangles()
    ensures AuditSlugAsWritten(Scheme + Host + PagesSlug()) == PagesOwner + PagesTail
    ensures AuditSlugAsWritten(Scheme + Host + PagesSlug()) != PagesSlug()
    ensures AuditSlug(Scheme + Host + PagesSlug()) == PagesSlug()
  {
    PagesSlugNoHost();
    PagesSlugRemoved();
    var s := PagesSlug();
    assert s[|s| - 1] == 'o' && s[0] == 'o';
    AuditSlugOfUrl(s);
    assert !EndsWith(s, ".git") by {
      assert s[|s| - 4..][3] == s[|s| - 1];
    }
    AuditSlugRecovers(s);
  }

  /** The question `audit_repo` asks about the code. */
  const AuditQuestion: string := "What does this codebase do and how is it structured?"

  /** The lines `audit_repo` joins: banner, repository info, overview, dependency health, closing banner. */
  function AuditLines(slug: string, info: string, overview: string, health: string): seq<string> {
    ["CodeLens Audit: " + slug + "\n" + Repeat('=', 40)]
    + ["\nRepo Info:"] + [info]
    + ["\nCodebase Overview:"] + [overview]
    + ["\nDependency Health:"] + [health]
    + ["\n" + Repeat('=', 40)] + ["Audit complete."]
  }

  /**
   * `audit_repo` as the source writes it: normalise the slug with
   * `replace(".git", "")`, then audit that slug.
   */
  method AuditRepo(repo: string, repos: GitHub.RepoApi, search: GitHub.CodeSearchApi, contents: GitHub.ContentsApi,
                   decode: string -> string, parse: string -> Option<Manifest.Json>, registry: Packages.Registry)
    returns (text: string)
    ensures text == Join(AuditLines(AuditSlugAsWritten(repo), Codebase.RepoInfo(AuditSlugAsWritten(repo), repos),
                                    Codebase.AskRepoText(AuditQuestion, AuditSlugAsWritten(repo), search, contents, decode),
                                    Packages.DependencyReport(AuditSlugAsWritten(repo),
                                                              GitHub.PackageFiles(AuditSlugAsWritten(repo), contents, decode),
                                                              parse, registry)), "\n")
  {
    var slug := RStripChar(Strip(repo), '/');
    if Contains(slug, Host) {
      slug := RemoveAll(LastPiece(slug, Host), ".git");
    }
    assert slug == AuditSlugAsWritten(repo);
    text := AuditOf(slug, repos, search, contents, decode, parse, registry);
  }

  /**
   * `audit_repo` with the intended normalisation: only a trailing `.git` is
   * dropped, so the tools run on the repository the caller named.
   */
  method AuditRepoIntended(repo: string, repos: GitHub.RepoApi, search: GitHub.CodeSearchApi, contents: GitHub.ContentsApi,
                           decode: string -> string, parse: string -> Option<Manifest.Json>, registry: Packages.Registry)
    returns (text: string)
    ensures text == Join(AuditLines(AuditSlug(repo), Codebase.RepoInfo(AuditSlug(repo), repos),
                                    Codebase.AskRepoText(AuditQuestion, AuditSlug(repo), search, contents, decode),
                                    Packages.DependencyReport(AuditSlug(repo), GitHub.PackageFiles(AuditSlug(repo), contents, decode),
                                                              parse, registry)), "\n")
  {
    var slug := RStripChar(Strip(repo), '/');
    if Contains(slug, Host) {
      slug := DropGitSuffix(LastPiece(slug, Host));
    }
    assert slug == AuditSlug(repo);
    text := AuditOf(slug, repos, search, contents, decode, parse, registry);
  }

  /** The audit of a normalised slug: each tool's text, run on that slug, under its heading. */
  method AuditOf(slug: string, repos: GitHub.RepoApi, search: GitHub.CodeSearchApi, contents: GitHub.ContentsApi,
                 decode: string -> string, parse: string -> Option<Manifest.Json>, registry: Packages.Registry)
    returns (text: string)
    ensures text == Join(AuditLines(slug, Codebase.RepoInfo(slug, repos),
                                    Codebase.AskRepoText(AuditQuestion, slug, search, contents, decode),
                                    Packages.DependencyReport(slug, GitHub.PackageFiles(slug, contents, decode),
                                                              parse, registry)), "\n")
  {
    var info := Codebase.RepoInfo(slug, repos);
    var overview, _ := Codebase.AskRepo(AuditQuestion, slug, search, contents, decode);
    var docs := GitHub.GetPackageFiles(slug, contents, decode);
    var health := Packages.CheckDependencies(slug, docs, parse, registry);
    text := AuditReport(slug, info, overview, health);
  }

  /** The report of `audit_repo`, appended section by section. */
  method AuditReport(slug: string, info: string, overview: string, health: string) returns (text: string)
    ensures text == Join(AuditLines(slug, info, overview, health), "\n")
  {
    var lines := ["CodeLens Audit: " + slug + "\n" + Repeat('=', 40)];
    lines := lines + ["\nRepo Info:"];
    lines := lines + [info];
    lines := lines + ["\nCodebase Overview:"];
    lines := lines + [overview];
    lines := lines + ["\nDependency Health:"];
    lines := lines + [health];
    lines := lines + ["\n" + Repeat('=', 40)];
    lines := lines + ["Audit complete."];
    text := Join(lines, "\n");
  }
}
