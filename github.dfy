/**
 * github.py: the search-term extraction and the shaping of GitHub API replies.
 * Every endpoint is an oracle from its request to a `Reply`: an error
 * dictionary (a non-200 status or a failed request) or the decoded body.
 */
module GitHub {
  import opened Wrappers
  import opened Seqs
  import opened Text

  /** What `_get` returns: `{"error": ...}` or the JSON body of a 200 reply. */
  datatype Reply<T> = ApiError(message: string) | Ok(body: T)

  // ---------------------------------------------------------------- extract_search_term

  const Stopwords: set<string> := {
    "how", "does", "do", "what", "is", "are", "where", "which", "find",
    "show", "me", "the", "a", "an", "in", "this", "codebase", "repo",
    "repository", "all", "any", "give", "explain", "tell", "work", "works",
    "implemented", "handled", "used", "using", "code", "related"
  }

  const MaxTerms: nat := 3

  /** A word worth searching for: longer than two characters and not a stopword. */
  predicate IsKeyword(w: string) {
    w !in Stopwords && |w| > 2
  }

  /** `question.lower().replace("?", "").replace(",", "")`. */
  function Cleaned(question: string): string {
    RemoveAll(RemoveAll(Lower(question), "?"), ",")
  }

  /** The keywords of a question, in question order. */
  function Keywords(question: string): seq<string> {
    Filter(Words(Cleaned(question)), IsKeyword)
  }

  /**
   * `extract_search_term`: the first three keywords joined by spaces, or else
   * the first word of the question as typed. `None` stands for the IndexError
   * the source raises when even that word does not exist.
   */
  function SearchTerm(question: string): Option<string> {
    var keywords := Keywords(question);
    if keywords != [] then Some(Join(Take(keywords, MaxTerms), " "))
    else if Words(question) != [] then Some(Words(question)[0])
    else None
  }

  /** Every element of a filter of words is a word. */
  lemma FilterWords(ws: seq<string>, keep: string -> bool)
    requires AreWords(ws)
    ensures AreWords(Filter(ws, keep))
  {
    var r := Filter(ws, keep);
    forall k | 0 <= k < |r|
      ensures r[k] != [] && NoSpace(r[k])
    {
      FilterMembers(ws, keep, r[k]);
    }
  }

  /** A blank question has no keyword either. */
  lemma BlankNoKeywords(question: string)
    requires Blank(question)
    ensures Keywords(question) == []
  {
    BlankUnchanged(question, '?');
    assert Blank(RemoveAll(question, "?"));
    BlankUnchanged(RemoveAll(question, "?"), ',');
    BlankWords(question);
  }

  /**
   * The term is missing exactly for a blank question. With keywords, the term
   * splits back into the first three of them, each a keyword; otherwise it is
   * the question's first word, case and punctuation kept.
   */
  lemma SearchTermRule(question: string)
    ensures SearchTerm(question).None? <==> Blank(question)
    ensures Keywords(question) != [] ==>
      SearchTerm(question).Some? && Words(SearchTerm(question).value) == Take(Keywords(question), MaxTerms)
    ensures Keywords(question) == [] && !Blank(question) ==>
      SearchTerm(question) == Some(Words(question)[0])
  {
    BlankWords(question);
    if Blank(question) {
      BlankNoKeywords(question);
    }
    var keywords := Keywords(question);
    if keywords != [] {
      WordsShape(Cleaned(question));
      FilterWords(Words(Cleaned(question)), IsKeyword);
      var top := Take(keywords, MaxTerms);
      assert AreWords(top) by {
        assert forall k :: 0 <= k < |top| ==> top[k] == keywords[k];
      }
      WordsOfJoin(top);
    }
  }

  /** A blank question has no search term: the source's IndexError. */
  lemma SearchTermBlank(question: string)
    requires Blank(question)
    ensures SearchTerm(question) == None
  {
    SearchTermRule(question);
  }

  /** Each searched word is a keyword of the cleaned question, and they keep question order. */
  lemma KeywordsRule(question: string, w: string)
    ensures w in Keywords(question) <==> w in Words(Cleaned(question)) && w !in Stopwords && |w| > 2
  {
    FilterMembers(Words(Cleaned(question)), IsKeyword, w);
  }

  // ---------------------------------------------------------------- search_code

  const PerPage: nat := 8

  /** One item of a code-search reply. */
  datatype CodeItem = CodeItem(path: string, repoName: string, url: string, sha: string)

  /** One entry of `search_code`'s list: the error entry, or a matched file. */
  datatype CodeResult = CodeFailed(error: string) | CodeMatch(filePath: string, repo: string, url: string, sha: string)

  /** The `search/code` endpoint, given the query string and `per_page`. */
  type CodeSearchApi = (string, nat) -> Reply<seq<CodeItem>>

  /** The search query: the terms, the repository qualifier, and a language qualifier only when a language is given. */
  function CodeQuery(repo: string, query: string, language: Option<string>): string {
    var q := query + " repo:" + repo;
    match language
    case Some(l) => if l != "" then q + " language:" + l else q
    case None => q
  }

  lemma CodeQueryRule(repo: string, query: string, language: Option<string>)
    ensures StartsWith(CodeQuery(repo, query, language), query + " repo:" + repo)
    ensures language.Some? && language.value != "" ==>
      CodeQuery(repo, query, language) == query + " repo:" + repo + " language:" + language.value
    ensures !(language.Some? && language.value != "") ==> CodeQuery(repo, query, language) == query + " repo:" + repo
  {
    var q := query + " repo:" + repo;
    if language.Some? && language.value != "" {
      StartsWithConcat(q, " language:" + language.value);
      assert q + " language:" + language.value == q + (" language:" + language.value);
    }
  }

  function MatchOf(item: CodeItem): CodeResult {
    CodeMatch(item.path, item.repoName, item.url, item.sha)
  }

  /** The list `search_code` builds from a reply. */
  function CodeResults(reply: Reply<seq<CodeItem>>): seq<CodeResult> {
    match reply
    case ApiError(m) => [CodeFailed(m)]
    case Ok(items) => seq(|items|, i requires 0 <= i < |items| => MatchOf(items[i]))
  }

  /** An error becomes a one-element list carrying it; otherwise there is one match per item, in order, and no error entry. */
  lemma CodeResultsRule(reply: Reply<seq<CodeItem>>)
    ensures reply.ApiError? ==> CodeResults(reply) == [CodeFailed(reply.message)]
    ensures reply.Ok? ==> |CodeResults(reply)| == |reply.body|
    ensures reply.Ok? ==> forall i :: 0 <= i < |reply.body| ==>
      CodeResults(reply)[i] == CodeMatch(reply.body[i].path, reply.body[i].repoName, reply.body[i].url, reply.body[i].sha)
  {
  }

  /** `search_code`: the request and the loop that appends one entry per item. */
  method SearchCode(repo: string, query: string, language: Option<string>, api: CodeSearchApi)
    returns (results: seq<CodeResult>)
    ensures results == CodeResults(api(CodeQuery(repo, query, language), PerPage))
  {
    var q := CodeQuery(repo, query, language);
    var reply := api(q, PerPage);
    if reply.ApiError? {
      return [CodeFailed(reply.message)];
    }
    var items := reply.body;
    results := [];
    var i := 0;
    while i < |items|
      invariant 0 <= i <= |items|
      invariant |results| == i
      invariant forall k :: 0 <= k < i ==> results[k] == MatchOf(items[k])
    {
      results := results + [CodeMatch(items[i].path, items[i].repoName, items[i].url, items[i].sha)];
      i := i + 1;
    }
  }

  // ---------------------------------------------------------------- get_file_content

  /** The body of the contents endpoint: a file object with its encoding, or anything else (a directory listing). */
  datatype Contents = FileObject(encoding: Option<string>, content: string) | OtherBody

  /** `repos/{repo}/contents/{path}`, given the repository and the path. */
  type ContentsApi = (string, string) -> Reply<Contents>

  /** `get_file_content`; `decode` is base64 decoding followed by UTF-8 decoding that drops bad bytes. */
  function FileContent(repo: string, path: string, api: ContentsApi, decode: string -> string): string {
    match api(repo, path)
    case ApiError(m) => "Error fetching " + path + ": " + m
    case Ok(body) =>
      if body.FileObject? && body.encoding == Some("base64") then decode(body.content)
      else "Could not decode " + path
  }

  /** An API error gives a text that starts with "Error"; a body that is not base64 gives "Could not decode", which does not. */
  lemma FileContentRule(repo: string, path: string, api: ContentsApi, decode: string -> string)
    ensures api(repo, path).ApiError? ==>
      FileContent(repo, path, api, decode) == "Error fetching " + path + ": " + api(repo, path).message
      && StartsWith(FileContent(repo, path, api, decode), "Error")
    ensures api(repo, path).Ok? && api(repo, path).body.FileObject? && api(repo, path).body.encoding == Some("base64") ==>
      FileContent(repo, path, api, decode) == decode(api(repo, path).body.content)
    ensures api(repo, path).Ok? && !(api(repo, path).body.FileObject? && api(repo, path).body.encoding == Some("base64")) ==>
      FileContent(repo, path, api, decode) == "Could not decode " + path
      && !StartsWith(FileContent(repo, path, api, decode), "Error")
  {
    match api(repo, path)
    case ApiError(m) =>
      assert StartsWith("Error fetching ", "Error");
      StartsWithExtend("Error fetching ", "Error", path);
      StartsWithExtend("Error fetching " + path, "Error", ": ");
      StartsWithExtend("Error fetching " + path + ": ", "Error", m);
    case Ok(body) =>
      var r := "Could not decode " + path;
      assert r[..5] == "Could";
  }

  // ---------------------------------------------------------------- get_package_files

  /** The files `get_package_files` tries, in this order. */
  const PackageFileNames: seq<string> :=
    ["package.json", "requirements.txt", "go.mod", "Cargo.toml", "pom.xml", "Gemfile", "composer.json"]

  /** The entry a file contributes: none when its fetched content starts with "Error". */
  function KeptFile(fetch: string -> string): string -> Option<(string, string)> {
    (name: string) => if StartsWith(fetch(name), "Error") then None else Some((name, fetch(name)))
  }

  /** The files of `names` that are kept, in order, as an insertion-ordered dictionary from filename to content. */
  function FoundFiles(names: seq<string>, fetch: string -> string): seq<(string, string)> {
    FilterMap(names, KeptFile(fetch))
  }

  /** `get_file_content` for one repository, as a function of the path. */
  function Fetcher(repo: string, api: ContentsApi, decode: string -> string): string -> string {
    (path: string) => FileContent(repo, path, api, decode)
  }

  /** What `get_package_files` returns. */
  function PackageFiles(repo: string, api: ContentsApi, decode: string -> string): seq<(string, string)> {
    FoundFiles(PackageFileNames, Fetcher(repo, api, decode))
  }

  /** A file is found, with its content, exactly when it is tried and its content does not start with "Error". */
  lemma FoundFilesRule(names: seq<string>, fetch: string -> string, name: string, content: string)
    ensures (name, content) in FoundFiles(names, fetch) <==>
      name in names && content == fetch(name) && !StartsWith(content, "Error")
  {
    var keep := KeptFile(fetch);
    FilterMapMembers(names, keep, (name, content));
    if (name, content) in FoundFiles(names, fetch) {
      var k :| 0 <= k < |names| && keep(names[k]) == Some((name, content));
      assert names[k] == name;
    }
    if name in names && content == fetch(name) && !StartsWith(content, "Error") {
      var k :| 0 <= k < |names| && names[k] == name;
      assert keep(names[k]) == Some((name, content));
    }
  }

  /**
   * Of the seven files, one whose fetch failed is never found, and one that
   * could not be decoded is found with the "Could not decode" text.
   */
  lemma PackageFilesErrors(repo: string, api: ContentsApi, decode: string -> string, name: string)
    requires name in PackageFileNames
    ensures api(repo, name).ApiError? ==>
      forall content :: (name, content) !in PackageFiles(repo, api, decode)
    ensures api(repo, name).Ok? && !(api(repo, name).body.FileObject? && api(repo, name).body.encoding == Some("base64")) ==>
      (name, "Could not decode " + name) in PackageFiles(repo, api, decode)
  {
    var fetch := Fetcher(repo, api, decode);
    FileContentRule(repo, name, api, decode);
    assert fetch(name) == FileContent(repo, name, api, decode);
    forall content
      ensures (name, content) in PackageFiles(repo, api, decode) <==>
        content == fetch(name) && !StartsWith(content, "Error")
    {
      FoundFilesRule(PackageFileNames, fetch, name, content);
    }
  }

  /** The loop of `get_package_files` over the names it tries, filling `found`. */
  method FetchFound(names: seq<string>, fetch: string -> string) returns (found: seq<(string, string)>)
    ensures found == FoundFiles(names, fetch)
  {
    found := [];
    var i := 0;
    while i < |names|
      invariant 0 <= i <= |names|
      invariant found == FilterMap(names[..i], KeptFile(fetch))
    {
      FilterMapStep(names, i, KeptFile(fetch));
      var content := fetch(names[i]);
      if !StartsWith(content, "Error") {
        found := found + [(names[i], content)];
      }
      i := i + 1;
    }
    PrefixWhole(names);
  }

  /** `get_package_files`: every file is fetched with `get_file_content`. */
  method GetPackageFiles(repo: string, api: ContentsApi, decode: string -> string) returns (found: seq<(string, string)>)
    ensures found == PackageFiles(repo, api, decode)
  {
    found := FetchFound(PackageFileNames, Fetcher(repo, api, decode));
  }

  // ---------------------------------------------------------------- get_repo_info

  /** The `license` field: absent, null or `{}` (all falsy), or an object that may carry a name. */
  datatype LicenseField = NoLicense | LicenseObject(name: Option<string>)

  /** The fields of the repository endpoint's body that `get_repo_info` reads. */
  datatype RepoData = RepoData(fullName: Option<string>, description: Option<string>, language: Option<string>,
                               stars: int, forks: int, openIssues: int, defaultBranch: string,
                               topics: seq<string>, license: LicenseField)

  /** `get_repo_info`'s dictionary: the error dictionary, or the repository's metadata. */
  datatype RepoInfo =
    | RepoError(error: string)
    | RepoInfo(name: Option<string>, description: Option<string>, language: Option<string>,
               stars: int, forks: int, openIssues: int, defaultBranch: string,
               topics: seq<string>, license: Option<string>)

  /** `repos/{repo}`, given the repository. */
  type RepoApi = string -> Reply<RepoData>

  function LicenseName(field: LicenseField): Option<string> {
    match field
    case NoLicense => None
    case LicenseObject(name) => name
  }

  function GetRepoInfo(repo: string, api: RepoApi): RepoInfo {
    match api(repo)
    case ApiError(m) => RepoError(m)
    case Ok(d) =>
      RepoInfo(d.fullName, d.description, d.language, d.stars, d.forks, d.openIssues, d.defaultBranch,
               d.topics, LicenseName(d.license))
  }

  /** An error is passed on unchanged; otherwise every field is copied and the license is its name, or none when it is falsy or unnamed. */
  lemma RepoInfoRule(repo: string, api: RepoApi)
    ensures GetRepoInfo(repo, api).RepoError? <==> api(repo).ApiError?
    ensures api(repo).ApiError? ==> GetRepoInfo(repo, api).error == api(repo).message
    ensures api(repo).Ok? ==>
      var d := api(repo).body;
      var info := GetRepoInfo(repo, api);
      info.name == d.fullName && info.description == d.description && info.language == d.language
      && info.stars == d.stars && info.forks == d.forks && info.openIssues == d.openIssues
      && info.defaultBranch == d.defaultBranch && info.topics == d.topics
      && (info.license.Some? <==> d.license.LicenseObject? && d.license.name.Some?)
      && (info.license.Some? ==> info.license.value == d.license.name.value)
  {
  }

  // ---------------------------------------------------------------- get_repo_tree

  datatype TreeItem = TreeItem(path: string, kind: string)

  /** `repos/{repo}/git/trees/{branch}?recursive=1`, given the repository and the branch. */
  type TreeApi = (string, string) -> Reply<seq<TreeItem>>

  function BlobPath(item: TreeItem): Option<string> {
    if item.kind == "blob" then Some(item.path) else None
  }

  /** The paths of the blob entries, in tree order. */
  function BlobPaths(items: seq<TreeItem>): seq<string> {
    FilterMap(items, BlobPath)
  }

  /** A path is listed exactly when some blob entry of the tree has it. */
  lemma BlobPathsMembers(items: seq<TreeItem>, p: string)
    ensures p in BlobPaths(items) <==> exists k :: 0 <= k < |items| && items[k].kind == "blob" && items[k].path == p
  {
    FilterMapMembers(items, BlobPath, p);
  }

  /** `get_repo_tree`: the branch's tree, or `master`'s when that fails, or nothing. */
  function RepoTree(repo: string, branch: string, api: TreeApi): seq<string> {
    var first := api(repo, branch);
    var data := if first.ApiError? then api(repo, "master") else first;
    match data
    case ApiError(_) => []
    case Ok(items) => BlobPaths(items)
  }

  /** `master` is consulted only after the branch fails; two failures give no paths. */
  lemma RepoTreeRule(repo: string, branch: string, api: TreeApi)
    ensures api(repo, branch).Ok? ==> RepoTree(repo, branch, api) == BlobPaths(api(repo, branch).body)
    ensures api(repo, branch).ApiError? && api(repo, "master").Ok? ==>
      RepoTree(repo, branch, api) == BlobPaths(api(repo, "master").body)
    ensures api(repo, branch).ApiError? && api(repo, "master").ApiError? ==> RepoTree(repo, branch, api) == []
  {
  }
}
