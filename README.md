# Codelens-MCP core, modelled in Dafny

Codelens-MCP answers questions about public GitHub repositories and their
dependencies. Most of it is glue around the GitHub API and the Libraries.io
registry. This project models the deterministic core that sits between those
calls:

- **Manifest parsing** (`Manifest`). The four branches of `_extract_packages`
  (package.json, requirements.txt, Cargo.toml, go.mod) and the
  `PACKAGE_FILES` table. The line loops and the Cargo `in_deps` flag are
  methods with loop invariants, each proved equal to a specification
  function. The split, strip and skip rules and the round trips are lemmas
  about those functions.
- **Dependency health** (`Packages`). The issue rule and the classification
  in `check_dependencies`, the per-file sections, the 20-package cap and the
  unfetched, then risky, then healthy order. The method that builds the report
  is proved equal to `DependencyReport`. The reordering is proved stable and
  a permutation.
- **Alternatives** (`Alternatives`). The filter, the stable sort by stars and
  the cap of 6 in `find_alternatives`.
- **GitHub shaping** (`GitHub`). Search-term extraction, the code-search query
  and result mapping, file-content error mapping, the package-file filter loop,
  the repository-info license mapping and the tree's blob filter with its
  `master` fallback.
- **Codebase tools** (`Codebase`):
  - the 4-result and 3000-character limits of `ask_repo`, with its loop;
  - the numbered results of `search_code`;
  - the error pass-through of `get_file`;
  - the default texts of `repo_info`;
  - the extension filter and 50-entry cap of `list_files`.
- **Combined tools** (`Combined`):
  - the repository or package decision of `_is_repo`;
  - `_guess_platform`;
  - both snapshot builders and the URL-to-slug rules;
  - `_format_snapshot`, the four-way dispatch and verdicts of `compare`;
  - the slug normalisation and section order of `audit_repo`, both as written
    and with the corrected normalisation.

The network is not modelled. Every HTTP reply is an abstract function
parameter returning an error-or-value datatype:

- `GitHub.RepoApi`, `GitHub.CodeSearchApi`, `GitHub.ContentsApi` and
  `GitHub.TreeApi` for GitHub;
- `Packages.Registry`, `Combined.PackageApi`, `Combined.PlatformSearch` and
  `Alternatives.Search` for the registry.

Four foreign computations are parameters too:

- the clock-dependent `_months_since`;
- `json.loads`;
- base64 and UTF-8 decoding;
- the regex class `\w`.

Shared pieces live in `Wrappers` (an `Option`), `Seqs` (take, filter,
filter-map and partition lemmas) and `Text` (Python's `strip`, `split`,
`find`, `replace`, `in`, `join`, `lower` and integer formatting, on
`seq<char>`).

## Model

| member | source | states |
|---|---|---|
| Manifest.PlatformKnown | tools/packages.py:16-24 | A file name has a registry platform exactly when it is one of the seven `PACKAGE_FILES` names, and that platform is never empty. |
| Manifest.PackageJsonEntries | tools/packages.py:210-212 | Content with no `{` yields no packages. |
| Manifest.SectionEntries | tools/packages.py:214-215 | A missing section yields nothing. A section that is an object yields its entries in key order. A non-object section is the error that stops the parse. |
| Manifest.PackageJsonSections | tools/packages.py:209-216 | The result is the `dependencies` entries followed by the `devDependencies` entries. A failing first section yields nothing. A failing second section keeps the first section's entries. |
| Manifest.PackageJsonCount | tools/packages.py:214-216 | With both sections present, the output holds exactly N+M entries, all dependencies first. |
| Manifest.ExtractPackageJson | tools/packages.py:209-216 | The loop over the two sections appends exactly `PackageJsonEntries`. It keeps what was appended before a failing section. |
| Manifest.RequirementLine | tools/packages.py:220-229 | Blank, `#` and `-` lines are skipped, and every other line yields one entry. `==` is tried before `>=`, and the line is split at the operator's first occurrence. A line with neither operator yields (line, ""). |
| Manifest.RequirementConstraint | tools/packages.py:222-229 | The constraint starts with the operator that matched. It is empty exactly when neither operator occurs. |
| Manifest.RequirementPinnedRoundTrip | tools/packages.py:222-224 | Parsing `name==version` from trimmed parts gives back (name, "==version"). |
| Manifest.RequirementMinimumRoundTrip | tools/packages.py:225-227 | Parsing `name>=version` gives back (name, ">=version"), because `==` does not occur. |
| Manifest.ExtractRequirements | tools/packages.py:219-229 | The line loop appends exactly the line-by-line filter-map of `RequirementLine`, in line order. |
| Manifest.CargoEntry | tools/packages.py:240-241 | The line is split at its first `=`. The name is stripped. The value is stripped, then loses every leading and trailing `"`. |
| Manifest.CargoItem | tools/packages.py:239-241 | A line inside a dependency section yields an entry exactly when it contains `=`. |
| Manifest.CargoStateIsLastSection | tools/packages.py:232-238 | After any prefix of lines, the `in_deps` flag is set exactly when the last `[`-line seen was `[dependencies]` or `[dev-dependencies]`. |
| Manifest.CargoEntryRule | tools/packages.py:233-241 | Each new line adds an entry exactly when the flag is set, the line does not open a section and it contains `=`. |
| Manifest.DepsHeaderOpensSection | tools/packages.py:235-238 | The two dependency headers are themselves `[`-lines, so the order of the tests decides which wins. |
| Manifest.CargoAssignmentRoundTrip | tools/packages.py:240-241 | Parsing `name = "version"` gives back (name, version). |
| Manifest.ExtractCargo | tools/packages.py:231-241 | The loop with its `in_deps` flag appends exactly `CargoEntries` of the lines. |
| Manifest.GoLine | tools/packages.py:245-249 | A line yields an entry exactly when it is not empty, `//`, `module` or `go ` and it has at least two whitespace tokens. |
| Manifest.GoLineTokens | tools/packages.py:247-249 | The entry is the first two tokens, both non-empty and without whitespace. |
| Manifest.GoLineRoundTrip | tools/packages.py:244-249 | `a b`, with `a` not one of the skipped prefixes, parses to (a, b). |
| Manifest.GoRequireBlockOpener | tools/packages.py:246-249 | The opener of a `require (` block is itself taken as an entry ("require", "("). |
| Manifest.ExtractGoMod | tools/packages.py:243-249 | The line loop appends exactly the filter-map of `GoLine`. |
| Manifest.ExtractedUnknown | tools/packages.py:205-209 | Any other file name, pom.xml, Gemfile and composer.json included, yields no packages. |
| Manifest.ExtractPackages | tools/packages.py:205-253 | The dispatch on the file name runs the matching branch and returns `Extracted`. |
| Packages.IssuesRule | tools/packages.py:155-161 | DEPRECATED is listed iff deprecated. Stale is listed iff the age is known and over 12. Few contributors is listed iff the count, read as 0 when missing, is under 2. Issues keep that order. |
| Packages.ClassifyRule | tools/packages.py:146-166 | A failed fetch gives only the could-not-fetch line. A fetched package is risky iff it has an issue, and healthy otherwise. |
| Packages.RenderMarkers | tools/packages.py:148-166 | Unfetched, risky and healthy lines start with `  ? `, `  [!] ` and `  [ok] `. |
| Packages.SectionBodyGrouped | tools/packages.py:146-169 | Within a section, unfetched lines come first, then risky, then healthy. |
| Packages.SectionUnfetchedInOrder | tools/packages.py:147-149 | Unfetched lines keep input order. |
| Packages.SectionRiskyInOrder | tools/packages.py:163-164 | Risky lines keep input order. |
| Packages.SectionHealthyInOrder | tools/packages.py:165-166 | Healthy lines keep input order. |
| Packages.SectionBodyPermutation | tools/packages.py:145-169 | The section body is a permutation of the classified lines. |
| Packages.FetchAll | tools/packages.py:137-143 | The fan-out is an order-preserving map: one reply per package, each its own lookup. |
| Packages.FileSectionShape | tools/packages.py:126-134 | A file gets a section iff it has a platform and yields packages. The section starts with the `filename (platform):` header. |
| Packages.FileSectionSize | tools/packages.py:135 | A section has one line per checked package, at most 20, after the header. |
| Packages.AllSectionsConcat | tools/packages.py:125-169 | The sections of two runs of manifests are those of the first run followed by those of the second. |
| Packages.AllSectionsBlock | tools/packages.py:125-169 | Each manifest's section is one contiguous block, after the sections of the manifests found before it and before those found after it. |
| Packages.DependencyReport | tools/packages.py:118-171 | No files gives the "No package files found" message. Otherwise the report starts with the health-check title. |
| Packages.AppendResults | tools/packages.py:145-169 | The classification loop, with its three lists, appends exactly the grouped section body. |
| Packages.CheckDependencies | tools/packages.py:109-171 | The loop over files appends exactly the modelled report. |
| Alternatives.PlatformsParam | tools/packages.py:179-181 | The `platforms` filter is sent iff a non-empty language is given. |
| Alternatives.CandidatesMembers | tools/packages.py:189 | A hit is a candidate iff its name differs from the query ignoring case. An absent name compares as the empty name. |
| Alternatives.SortByStarsSorted | tools/packages.py:190 | The sort is descending by stars and a permutation. |
| Alternatives.SortByStarsStable | tools/packages.py:190 | The sort is stable: hits with equal stars keep their order. |
| Alternatives.ShownHitsRule | tools/packages.py:189-193 | At most 6 are shown, all candidates, in descending order of stars. |
| Alternatives.ShownHitsAreTop | tools/packages.py:190-193 | A candidate left out has no more stars than any shown one. |
| Alternatives.FindAlternativesRule | tools/packages.py:183-193 | An error reply gives the error, an empty one gives "No alternatives", and otherwise the shown hits are listed. |
| Alternatives.Maintained | tools/packages.py:196 | "Active" iff the age is known and under 12 months, else "Outdated". |
| Alternatives.HitTextOpening | tools/packages.py:189-198 | An entry opens with the name and platform. A nameless hit is filtered as the empty name but listed as `None`, and a missing platform is listed as `?`. |
| Alternatives.AlternativesTextStart | tools/packages.py:184-192 | Each outcome opens with its own text. |
| GitHub.KeywordsRule | github.py:34-35 | A word is a keyword iff it is a word of the cleaned, lower-cased question, it is not a stopword and it is longer than 2. |
| GitHub.SearchTermRule | github.py:34-36 | With keywords, the term's words are the first 3 keywords. Without keywords, the term is the question's first word, unchanged. A blank question has no term. |
| GitHub.CodeQueryRule | github.py:41-43 | The query is `query repo:repo`, plus ` language:l` only when a language is given. |
| GitHub.CodeResultsRule | github.py:46-57 | An error is one error entry. Otherwise there is one entry per item, in order. |
| GitHub.SearchCode | github.py:39-57 | The loop appends exactly `CodeResults` of the reply to a request for 8 items. |
| GitHub.FileContentRule | github.py:60-67 | An API error gives `Error fetching path: ...`. A base64 body gives the decoded text. Anything else gives `Could not decode path`, which does not start with `Error`. |
| GitHub.FoundFilesRule | github.py:104-108 | A file is kept iff it is one of the names and its content does not start with `Error`. |
| GitHub.PackageFilesErrors | github.py:63-108 | A file whose fetch errors is never kept. An undecodable file is kept with its `Could not decode` text. |
| GitHub.GetPackageFiles | github.py:98-109 | The loop over the seven fixed names fills exactly `PackageFiles`. |
| GitHub.RepoInfoRule | github.py:70-85 | An error reply is passed on. Otherwise the name, description, language, stars, forks, open issues, default branch and topics are copied, and the license is the license name when the license is present with a name, else None. |
| GitHub.BlobPathsMembers | github.py:95 | A path is listed iff some tree entry of kind `blob` has it. |
| GitHub.RepoTreeRule | github.py:88-95 | It tries the branch, then `master` once if the branch errors. It lists the blob paths of the first success, or nothing if both error. |
| Codebase.TruncatedRule | tools/codebase.py:37-38 | Content up to 3000 characters is unchanged. Longer content becomes its first 3000 characters plus the truncation mark. |
| Codebase.CitationHeader | tools/codebase.py:39-43 | Each citation starts with `File: path`. |
| Codebase.AskRepoRule | tools/codebase.py:26-45 | A search error or no results gives the failure text and no fetches. Otherwise exactly the first 4 results are fetched, in order. |
| Codebase.AskRepoBlank | tools/codebase.py:26-54 | A blank question fails on its first word and gives the caught index error, with no fetches. |
| Codebase.Quote | tools/codebase.py:33-51 | The loop over the first 4 results appends one truncated citation per result. It builds exactly the modelled answer. |
| Codebase.AskRepo | tools/codebase.py:16-54 | The text and the fetched paths are the modelled ones. |
| Codebase.ResultLinesRule | tools/codebase.py:74-78 | Entries are numbered 1 to n, in result order. |
| Codebase.SearchCodeFails | tools/codebase.py:69-71 | The text is the failure text iff the search errored or found nothing. |
| Codebase.SearchCode | tools/codebase.py:57-79 | The numbering loop builds exactly the modelled text. |
| Codebase.GetFileRule | tools/codebase.py:85-97 | Content starting with `Error` is passed on unchanged. Other content gets the `repo/path` header and rule. |
| Codebase.LicenseTextRule | tools/codebase.py:122 | A None or empty license shows as `N/A`. |
| Codebase.TopicsTextRule | tools/codebase.py:114 | Empty topics show as `none`. Otherwise they are joined with `, `. |
| Codebase.RepoInfoRule | tools/codebase.py:102-124 | An error gives `Error: ...`. Otherwise the text starts with the name, ends with the topics line and carries the license line. |
| Codebase.ExtensionRule | tools/codebase.py:146 | The normalised extension starts with `.` and ends with the given one. A `.` is prepended only when missing. |
| Codebase.SelectedRule | tools/codebase.py:145-147 | Without an extension all files are kept. With one, a file is kept iff it ends with the normalised extension. |
| Codebase.ListingLinesRule | tools/codebase.py:149-154 | The header is followed by the first files, at most 50, in order. A "more" line appears iff there are over 50. |
| Codebase.ListFilesTextRule | tools/codebase.py:142-151 | An empty tree gives the could-not-fetch text. The count is taken after filtering, so filtering everything away gives "(0 total)". |
| Codebase.ListFilesRule | tools/codebase.py:138-140 | The tree is read on the default branch, or on `main` when the repository info errors. |
| Combined.RepoShapedRule | tools/combined.py:64 | For a `\w` without `/`, the shape holds iff there is one `/`, neither first nor last, and every other character is a word character, `.` or `-`. |
| Combined.IsRepoUrl | tools/combined.py:62-63 | Any input containing `github.com` is a repository. |
| Combined.GuessPlatformRule | tools/combined.py:67-71 | An error or empty reply gives `npm`. Otherwise the result is the top hit's platform, lower-cased, and it is always lower case. |
| Combined.PackageSnapshotRule | tools/combined.py:74-91 | A lookup that fails gives "Could not find 'name' on platform". A found package keeps the platform and defaults missing fields. |
| Combined.RepoSnapshotRule | tools/combined.py:94-111 | An error is passed on. A found repository is a `github` snapshot with its stars and topics. |
| Combined.RepoSlugRecovers | tools/combined.py:95-97 | A pasted URL, with or without a trailing `/`, and a plain slug all give back the slug. |
| Combined.RepoSlugOfUrl | tools/combined.py:96-97 | From a URL the slug is the text after `github.com/`, stripped of `/` at both ends. |
| Combined.MaintenanceRule | tools/combined.py:135 | The status is "Active" iff the age is under 12. |
| Combined.SnapshotTextRule | tools/combined.py:115-118 | An error snapshot is the single line `Error: ...`. Otherwise the text opens with `name (platform)`. |
| Combined.GithubLinesRule | tools/combined.py:124-129 | A repository adds Language and License lines, plus Topics only when there are topics. |
| Combined.PackageLinesRule | tools/combined.py:130-139 | A package adds Maintenance only when the age is known, DEPRECATED only when deprecated, and always Homepage, at the positions these rules give. |
| Combined.FormatSnapshot | tools/combined.py:114-141 | The appends build exactly `SnapshotText`. |
| Combined.DispatchRule | tools/combined.py:154-169 | A platform hint makes both items packages on it. Otherwise repo mode holds iff both are repositories, mixed mode iff exactly one is, and each item is resolved by its own shape. |
| Combined.VerdictsRule | tools/combined.py:179-186 | The popularity verdict appears iff neither snapshot is an error, ties to item1. The recency verdict appears iff additionally in package mode with both ages known, ties to item1, never in mixed mode. |
| Combined.CompareLinesRule | tools/combined.py:171-177 | Both formatted snapshots always appear, item1's first and between rules, followed by at most two verdicts. |
| Combined.Compare | tools/combined.py:144-188 | The dispatch and appends build exactly `CompareText`. |
| Combined.AuditSlugOfUrl | tools/combined.py:37-39 | From a URL, the source removes every `.git` after the last `github.com/`. The corrected rule drops only a trailing `.git`. |
| Combined.AuditSlugRecovers | tools/combined.py:37-39 | The corrected rule recovers the slug from a URL, from a clone URL and from a plain slug. |
| Combined.AuditSlugMangles | tools/combined.py:39 | The source's rule turns the URL of `octocat/octocat.github.io` into `octocat/octocathub.io`, while the corrected rule keeps the slug. |
| Combined.AuditRepo | tools/combined.py:29-55 | On the slug as the source normalises it, with every `.git` removed, the report is the banner, then repository info, overview and dependency health under their headings, then the closing banner. |
| Combined.AuditRepoIntended | tools/combined.py:29-55 | The same report on the slug with only a trailing `.git` dropped. |
| Combined.AuditOf | tools/combined.py:41-55 | The report for a given slug runs every tool on that slug and places each text under its heading. |

## Left out

- HTTP access (`_get` and `_api_get`), headers, timeouts and credentials are not modelled. Replies are abstract function parameters.
- The thread pool in `check_dependencies` is modelled as a sequential, order-preserving map.
- `_months_since` reads the clock. It is an abstract `string -> Option<int>` parameter.
- These are parameters rather than models:
  - `json.loads`, as a parser returning an ordered object tree;
  - base64 and UTF-8 decoding;
  - the Unicode `\w` class.
- `lower()` is modelled for ASCII letters only.
- The thousands separators of `:,` are left out: integers are printed plainly.
- The outer `except Exception` handlers are left out, apart from two failures the model can name. One is the index error of a blank question in `ask_repo`. The other is the non-object section that stops a package.json parse.
- Replies are assumed to have the shapes the code reads:
  - search items carry a path, repository, URL and SHA;
  - a repository body has a default branch;
  - JSON nulls in registry bodies are treated as missing keys.
- `Alternatives.Hit`: an absent name is modelled. A name present as JSON null is not: the source's filter would fail on `None.lower()` there.
- server.py and its tool registration are not part of this model.
- `repo_summary`, `search_packages` and `get_package_info` are not part of this model. They only concatenate or print.
- `Codebase.RepoInfoText` is written as the newline join of its lines rather than one f-string. The two are the same text.
- `Combined.RepoSlugRecovers` requires that `slug + "/"` does not contain `github.com/`. A slug ending in `github.com` would otherwise be cut at that later occurrence.

## Findings

| source | as written | input that shows it | evidently intended | confidence | as-written member | corrected member |
|---|---|---|---|---|---|---|
| tools/combined.py:39 | `.replace(".git", "")` removes every `.git` in the slug | `https://github.com/octocat/octocat.github.io` becomes `octocat/octocathub.io` | drop only a trailing `.git` of a clone URL | high (not executed) | Combined.AuditSlugMangles | Combined.AuditSlugRecovers |

`Combined.AuditRepo` keeps the source's slug rule, so its report is the one the
source produces. `Combined.AuditRepoIntended` runs the same tools on the
corrected slug.
