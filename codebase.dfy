/**
 * tools/codebase.py: the five codebase tools over the models of github.py's
 * endpoints. Each tool's text is a function of the API replies; `ask_repo`
 * and `search_code`, which build their text with a loop, are methods proved
 * against that function.
 */
module Codebase {
  import opened Wrappers
  import opened Seqs
  import opened Text
  import GitHub

  /** The horizontal rule under a file header: forty box-drawing characters. */
  function Rule(): (r: string)
    ensures |r| == 40
  {
    Repeat('─', 40)
  }

  // ---------------------------------------------------------------- ask_repo

  const MaxFetched: nat := 4
  const MaxChars: nat := 3000
  const TruncationMark: string := "\n... (truncated)"

  /** The message of the IndexError that `extract_search_term` raises on a blank question. */
  const IndexErrorMessage: string := "list index out of range"

  /** A fetched file's content as `ask_repo` quotes it. */
  function Truncated(content: string): string {
    if |content| > MaxChars then content[..MaxChars] + TruncationMark else content
  }

  /**
   * Content of at most 3000 characters is quoted unchanged; longer content
   * keeps exactly its first 3000 characters and ends with the truncation mark.
   */
  lemma TruncatedRule(content: string)
    ensures |content| <= MaxChars ==> Truncated(content) == content
    ensures |content| > MaxChars ==>
      |Truncated(content)| == MaxChars + |TruncationMark| && EndsWith(Truncated(content), TruncationMark)
    ensures |Truncated(content)| <= MaxChars + |TruncationMark|
    ensures forall i :: 0 <= i < |content| && i < MaxChars ==> Truncated(content)[i] == content[i]
  {
  }

  /** One entry of `context_parts`. */
  function Citation(path: string, content: string): string {
    "File: " + path + "\n" + Rule() + "\n" + Truncated(content)
  }

  /** Every entry opens with its file's path on a header line. */
  lemma CitationHeader(path: string, content: string)
    ensures StartsWith(Citation(path, content), "File: " + path + "\n")
  {
    var head := "File: " + path + "\n";
    StartsWithConcat(head, Rule() + "\n" + Truncated(content));
    assert Citation(path, content) == head + (Rule() + "\n" + Truncated(content));
  }

  /** The entries for the search items whose files are quoted. */
  function Citations(repo: string, items: seq<GitHub.CodeItem>, api: GitHub.ContentsApi, decode: string -> string): seq<string> {
    seq(|items|, i requires 0 <= i < |items| => Citation(items[i].path, GitHub.FileContent(repo, items[i].path, api, decode)))
  }

  /** The text `ask_repo` returns once it has its entries. */
  function Answer(question: string, repo: string, term: string, parts: seq<string>): string {
    "Relevant code from '" + repo + "' for: \"" + question + "\"\n"
    + "Search term used: '" + term + "'\n\n"
    + Join(parts, "\n\n") + "\n\n"
    + "Use the above code to answer the question with exact file citations."
  }

  /** The code-search reply `ask_repo` works from: the search term's query, with no language. */
  function AskReply(term: string, repo: string, search: GitHub.CodeSearchApi): GitHub.Reply<seq<GitHub.CodeItem>> {
    search(GitHub.CodeQuery(repo, term, None), GitHub.PerPage)
  }

  /** What `ask_repo` returns once it has a search term. */
  function AskWithTerm(question: string, repo: string, term: string, search: GitHub.CodeSearchApi,
                       api: GitHub.ContentsApi, decode: string -> string): string {
    match AskReply(term, repo, search)
    case ApiError(m) => "Could not search repo '" + repo + "': " + m
    case Ok(items) =>
      if items == [] then "Could not search repo '" + repo + "': No results"
      else Answer(question, repo, term, Citations(repo, Take(items, MaxFetched), api, decode))
  }

  /** The paths whose contents `ask_repo` fetches once it has a search term, in fetch order. */
  function FetchesWithTerm(repo: string, term: string, search: GitHub.CodeSearchApi): seq<string> {
    match AskReply(term, repo, search)
    case ApiError(_) => []
    case Ok(items) =>
      var shown := Take(items, MaxFetched);
      seq(|shown|, i requires 0 <= i < |shown| => shown[i].path)
  }

  /** What `ask_repo` returns. */
  function AskRepoText(question: string, repo: string, search: GitHub.CodeSearchApi, api: GitHub.ContentsApi,
                       decode: string -> string): string {
    match GitHub.SearchTerm(question)
    case None => "Error: " + IndexErrorMessage
    case Some(term) => AskWithTerm(question, repo, term, search, api, decode)
  }

  /** The paths whose contents `ask_repo` fetches. */
  function AskRepoFetches(question: string, repo: string, search: GitHub.CodeSearchApi): seq<string> {
    match GitHub.SearchTerm(question)
    case None => []
    case Some(term) => FetchesWithTerm(repo, term, search)
  }

  /**
   * A failed or empty search fetches no file and gives the failure message;
   * otherwise the first four results, and no more, are fetched in order and
   * quoted, one entry each.
   */
  lemma AskRepoRule(question: string, repo: string, search: GitHub.CodeSearchApi, api: GitHub.ContentsApi,
                    decode: string -> string, term: string)
    requires GitHub.SearchTerm(question) == Some(term)
    ensures AskReply(term, repo, search).ApiError? ==>
      AskRepoFetches(question, repo, search) == []
      && AskRepoText(question, repo, search, api, decode)
         == "Could not search repo '" + repo + "': " + AskReply(term, repo, search).message
    ensures AskReply(term, repo, search) == GitHub.Ok([]) ==>
      AskRepoFetches(question, repo, search) == []
      && AskRepoText(question, repo, search, api, decode) == "Could not search repo '" + repo + "': No results"
    ensures |AskRepoFetches(question, repo, search)| <= MaxFetched
    ensures AskReply(term, repo, search).Ok? ==>
      var items := AskReply(term, repo, search).body;
      |AskRepoFetches(question, repo, search)| == (if |items| <= MaxFetched then |items| else MaxFetched)
      && forall i :: 0 <= i < |AskRepoFetches(question, repo, search)| ==>
           AskRepoFetches(question, repo, search)[i] == items[i].path
  {
  }

  /** A blank question has no search term: `ask_repo` reports the IndexError and fetches nothing. */
  lemma AskRepoBlank(question: string, repo: string, search: GitHub.CodeSearchApi, api: GitHub.ContentsApi,
                     decode: string -> string)
    requires Blank(question)
    ensures AskRepoText(question, repo, search, api, decode) == "Error: " + IndexErrorMessage
    ensures AskRepoFetches(question, repo, search) == []
  {
    GitHub.SearchTermBlank(question);
  }

  /**
   * `ask_repo`: extract the term, then search and quote. `fetched` records
   * the paths passed to `get_file_content`.
   */
  method AskRepo(question: string, repo: string, search: GitHub.CodeSearchApi, api: GitHub.ContentsApi,
                 decode: string -> string)
    returns (text: string, ghost fetched: seq<string>)
    ensures text == AskRepoText(question, repo, search, api, decode)
    ensures fetched == AskRepoFetches(question, repo, search)
  {
    var term := GitHub.SearchTerm(question);
    if term.None? {
      return "Error: " + IndexErrorMessage, [];
    }
    text, fetched := Quote(question, repo, term.value, search, api, decode);
  }

  /** The first `n` entries and fetches of the loop over `items`. */
  ghost predicate QuotedUpTo(parts: seq<string>, fetched: seq<string>, items: seq<GitHub.CodeItem>, n: nat,
                             repo: string, api: GitHub.ContentsApi, decode: string -> string) {
    n <= |items| && |parts| == n && |fetched| == n
    && forall k :: 0 <= k < n ==>
         fetched[k] == items[k].path && parts[k] == Citation(items[k].path, GitHub.FileContent(repo, items[k].path, api, decode))
  }

  lemma QuoteStep(parts: seq<string>, fetched: seq<string>, items: seq<GitHub.CodeItem>, n: nat,
                  repo: string, api: GitHub.ContentsApi, decode: string -> string, entry: string)
    requires QuotedUpTo(parts, fetched, items, n, repo, api, decode) && n < |items|
    requires entry == Citation(items[n].path, GitHub.FileContent(repo, items[n].path, api, decode))
    ensures QuotedUpTo(parts + [entry], fetched + [items[n].path], items, n + 1, repo, api, decode)
  {
  }

  lemma QuoteDone(parts: seq<string>, fetched: seq<string>, items: seq<GitHub.CodeItem>,
                  repo: string, api: GitHub.ContentsApi, decode: string -> string)
    requires QuotedUpTo(parts, fetched, items, |items|, repo, api, decode)
    ensures parts == Citations(repo, items, api, decode)
    ensures fetched == seq(|items|, i requires 0 <= i < |items| => items[i].path)
  {
  }

  /** A search with results quotes the first four of them. */
  lemma AskWithResults(question: string, repo: string, term: string, search: GitHub.CodeSearchApi,
                       api: GitHub.ContentsApi, decode: string -> string, parts: seq<string>, fetched: seq<string>)
    requires AskReply(term, repo, search).Ok? && AskReply(term, repo, search).body != []
    requires parts == Citations(repo, Take(AskReply(term, repo, search).body, MaxFetched), api, decode)
    requires var items := Take(AskReply(term, repo, search).body, MaxFetched);
      fetched == seq(|items|, i requires 0 <= i < |items| => items[i].path)
    ensures Answer(question, repo, term, parts) == AskWithTerm(question, repo, term, search, api, decode)
    ensures fetched == FetchesWithTerm(repo, term, search)
  {
  }

  /** The search and the loop that fetches each of the first four results and appends its truncated entry. */
  method Quote(question: string, repo: string, term: string, search: GitHub.CodeSearchApi, api: GitHub.ContentsApi,
               decode: string -> string)
    returns (text: string, ghost fetched: seq<string>)
    ensures text == AskWithTerm(question, repo, term, search, api, decode)
    ensures fetched == FetchesWithTerm(repo, term, search)
  {
    fetched := [];
    var results := GitHub.SearchCode(repo, term, None, search);
    ghost var reply := AskReply(term, repo, search);
    GitHub.CodeResultsRule(reply);
    if results == [] || results[0].CodeFailed? {
      var error := if results == [] then "No results" else results[0].error;
      return "Could not search repo '" + repo + "': " + error, [];
    }
    var shown := Take(results, MaxFetched);
    ghost var items := Take(reply.body, MaxFetched);
    assert forall k :: 0 <= k < |shown| ==> shown[k].CodeMatch? && shown[k].filePath == items[k].path;
    var parts: seq<string> := [];
    var i := 0;
    while i < |shown|
      invariant 0 <= i <= |shown| == |items|
      invariant QuotedUpTo(parts, fetched, items, i, repo, api, decode)
    {
      var path := shown[i].filePath;
      ghost var original := GitHub.FileContent(repo, path, api, decode);
      var content := GitHub.FileContent(repo, path, api, decode);
      if |content| > MaxChars {
        content := content[..MaxChars] + TruncationMark;
      }
      assert content == Truncated(original);
      QuoteStep(parts, fetched, items, i, repo, api, decode, "File: " + path + "\n" + Rule() + "\n" + content);
      parts := parts + ["File: " + path + "\n" + Rule() + "\n" + content];
      fetched := fetched + [path];
      i := i + 1;
    }
    QuoteDone(parts, fetched, items, repo, api, decode);
    AskWithResults(question, repo, term, search, api, decode, parts, fetched);
    text := "Relevant code from '" + repo + "' for: \"" + question + "\"\n"
      + "Search term used: '" + term + "'\n\n"
      + Join(parts, "\n\n") + "\n\n"
      + "Use the above code to answer the question with exact file citations.";
  }

  // ---------------------------------------------------------------- search_code

  /** The entry for the `n`-th result, counting from one. */
  function NumberedLine(n: nat, item: GitHub.CodeItem): string {
    NatToString(n) + ". " + item.path + "\n   " + item.url
  }

  function ResultLines(items: seq<GitHub.CodeItem>): seq<string> {
    seq(|items|, i requires 0 <= i < |items| => NumberedLine(i + 1, items[i]))
  }

  /** The prefix of every failure message of `search_code`. */
  function SearchFailed(repo: string): string {
    "Search failed for '" + repo + "': "
  }

  /** The header line of a successful search. */
  function SearchHeader(query: string, repo: string): string {
    "Search results for '" + query + "' in '" + repo + "':\n"
  }

  /** What `search_code` returns for the reply to its query. */
  function SearchCodeText(query: string, repo: string, reply: GitHub.Reply<seq<GitHub.CodeItem>>): string {
    match reply
    case ApiError(m) => SearchFailed(repo) + m
    case Ok(items) =>
      if items == [] then SearchFailed(repo) + "No results"
      else Join([SearchHeader(query, repo)] + ResultLines(items), "\n")
  }

  /** The results are numbered 1 to n in result order, each entry opening with its number and path. */
  lemma ResultLinesRule(items: seq<GitHub.CodeItem>)
    ensures |ResultLines(items)| == |items|
    ensures forall i :: 0 <= i < |items| ==>
      StartsWith(ResultLines(items)[i], NatToString(i + 1) + ". " + items[i].path + "\n")
  {
    forall i | 0 <= i < |items|
      ensures StartsWith(ResultLines(items)[i], NatToString(i + 1) + ". " + items[i].path + "\n")
    {
      var head := NatToString(i + 1) + ". " + items[i].path + "\n";
      StartsWithConcat(head, "   " + items[i].url);
      assert ResultLines(items)[i] == head + ("   " + items[i].url);
    }
  }

  /** `search_code` reports a failure exactly when the search errs or finds nothing. */
  lemma SearchCodeFails(query: string, repo: string, reply: GitHub.Reply<seq<GitHub.CodeItem>>)
    ensures StartsWith(SearchCodeText(query, repo, reply), SearchFailed(repo)) <==> reply.ApiError? || reply.body == []
    ensures reply.ApiError? ==> SearchCodeText(query, repo, reply) == SearchFailed(repo) + reply.message
  {
    var text := SearchCodeText(query, repo, reply);
    if reply.ApiError? {
      StartsWithConcat(SearchFailed(repo), reply.message);
    } else if reply.body == [] {
      StartsWithConcat(SearchFailed(repo), "No results");
    } else {
      var header := SearchHeader(query, repo);
      JoinHead([header] + ResultLines(reply.body), "\n");
      assert StartsWith(text, header);
      assert text[7] == header[7] == 'r';
      assert SearchFailed(repo)[7] == 'f';
    }
  }

  /** `search_code`: one numbered entry per result, appended in a loop (`enumerate(results, 1)`). */
  method SearchCode(query: string, repo: string, language: Option<string>, search: GitHub.CodeSearchApi)
    returns (text: string)
    ensures text == SearchCodeText(query, repo, search(GitHub.CodeQuery(repo, query, language), GitHub.PerPage))
  {
    var results := GitHub.SearchCode(repo, query, language, search);
    ghost var reply := search(GitHub.CodeQuery(repo, query, language), GitHub.PerPage);
    GitHub.CodeResultsRule(reply);
    if results == [] || results[0].CodeFailed? {
      var error := if results == [] then "No results" else results[0].error;
      return SearchFailed(repo) + error;
    }
    ghost var items := reply.body;
    var lines := [SearchHeader(query, repo)];
    var i := 0;
    while i < |results|
      invariant 0 <= i <= |results|
      invariant |lines| == i + 1 && lines[0] == SearchHeader(query, repo)
      invariant forall k :: 0 <= k < i ==> lines[k + 1] == NumberedLine(k + 1, items[k])
    {
      lines := lines + [NatToString(i + 1) + ". " + results[i].filePath + "\n   " + results[i].url];
      i := i + 1;
    }
    assert lines == [SearchHeader(query, repo)] + ResultLines(items);
    text := Join(lines, "\n");
  }

  // ---------------------------------------------------------------- get_file

  /** `get_file`: an error text passes through; anything else gets a `repo/path` header. */
  function GetFile(repo: string, path: string, api: GitHub.ContentsApi, decode: string -> string): string {
    var content := GitHub.FileContent(repo, path, api, decode);
    if StartsWith(content, "Error") then content
    else repo + "/" + path + "\n" + Rule() + "\n" + content
  }

  /**
   * An API error comes back as `get_file_content`'s error text, unchanged;
   * any content not starting with "Error" (an undecodable body included)
   * follows a `repo/path` header line and the rule.
   */
  lemma GetFileRule(repo: string, path: string, api: GitHub.ContentsApi, decode: string -> string)
    ensures api(repo, path).ApiError? ==>
      GetFile(repo, path, api, decode) == "Error fetching " + path + ": " + api(repo, path).message
    ensures StartsWith(GitHub.FileContent(repo, path, api, decode), "Error") ==>
      GetFile(repo, path, api, decode) == GitHub.FileContent(repo, path, api, decode)
    ensures !StartsWith(GitHub.FileContent(repo, path, api, decode), "Error") ==>
      StartsWith(GetFile(repo, path, api, decode), repo + "/" + path + "\n")
      && EndsWith(GetFile(repo, path, api, decode), GitHub.FileContent(repo, path, api, decode))
    ensures api(repo, path).Ok? && !(api(repo, path).body.FileObject? && api(repo, path).body.encoding == Some("base64")) ==>
      GetFile(repo, path, api, decode) == repo + "/" + path + "\n" + Rule() + "\n" + "Could not decode " + path
  {
    GitHub.FileContentRule(repo, path, api, decode);
    var content := GitHub.FileContent(repo, path, api, decode);
    if !StartsWith(content, "Error") {
      var head := repo + "/" + path + "\n";
      var r := GetFile(repo, path, api, decode);
      assert r == head + (Rule() + "\n" + content);
      StartsWithConcat(head, Rule() + "\n" + content);
      assert r == (head + Rule() + "\n") + content;
      assert r[|r| - |content|..] == content;
    }
  }

  // ---------------------------------------------------------------- repo_info

  /** An optional text in an f-string: Python prints `None` for a missing value. */
  function Shown(o: Option<string>): string {
    match o
    case Some(s) => s
    case None => "None"
  }

  /** `info['license'] or 'N/A'`. */
  function LicenseText(license: Option<string>): string {
    if license.Some? && license.value != "" then license.value else "N/A"
  }

  /** `", ".join(topics) if topics else "none"`. */
  function TopicsText(topics: seq<string>): string {
    if topics == [] then "none" else Join(topics, ", ")
  }

  /** A missing or empty license reads "N/A"; a named one reads its name. */
  lemma LicenseTextRule(license: Option<string>)
    ensures license == None || license == Some("") ==> LicenseText(license) == "N/A"
    ensures license.Some? && license.value != "" ==> LicenseText(license) == license.value
    ensures LicenseText(license) != ""
  {
  }

  /** No topics read "none"; otherwise the topics are listed, the first one leading. */
  lemma TopicsTextRule(topics: seq<string>)
    ensures topics == [] ==> TopicsText(topics) == "none"
    ensures topics != [] ==> TopicsText(topics) == Join(topics, ", ") && StartsWith(TopicsText(topics), topics[0])
  {
    if topics != [] {
      JoinHead(topics, ", ");
    }
  }

  /** The eight labelled lines of a repository's metadata, in display order. */
  function InfoLines(info: GitHub.RepoInfo): seq<string>
    requires info.RepoInfo?
  {
    [Shown(info.name),
     "Description : " + Shown(info.description),
     "Language    : " + Shown(info.language),
     "Stars       : " + IntToString(info.stars),
     "Forks       : " + IntToString(info.forks),
     "Open issues : " + IntToString(info.openIssues),
     "License     : " + LicenseText(info.license),
     "Topics      : " + TopicsText(info.topics)]
  }

  /** The text `repo_info` builds from `get_repo_info`'s dictionary; the f-string's lines are joined by newlines. */
  function RepoInfoText(info: GitHub.RepoInfo): string {
    match info
    case RepoError(e) => "Error: " + e
    case RepoInfo(_, _, _, _, _, _, _, _, _) => Join(InfoLines(info), "\n")
  }

  /** `repo_info`. */
  function RepoInfo(repo: string, api: GitHub.RepoApi): string {
    RepoInfoText(GitHub.GetRepoInfo(repo, api))
  }

  /**
   * An error gives "Error: " and its message; otherwise the text opens with
   * the repository's name line and closes with the topics line, and the
   * license line reads "N/A" for a missing or empty license.
   */
  lemma RepoInfoRule(repo: string, api: GitHub.RepoApi)
    ensures api(repo).ApiError? ==> RepoInfo(repo, api) == "Error: " + api(repo).message
    ensures api(repo).Ok? ==>
      var info := GitHub.GetRepoInfo(repo, api);
      StartsWith(RepoInfo(repo, api), Shown(api(repo).body.fullName))
      && EndsWith(RepoInfo(repo, api), "Topics      : " + TopicsText(api(repo).body.topics))
      && InfoLines(info)[6] == "License     : " + LicenseText(info.license)
  {
    GitHub.RepoInfoRule(repo, api);
    var info := GitHub.GetRepoInfo(repo, api);
    if info.RepoInfo? {
      JoinHead(InfoLines(info), "\n");
      JoinLast(InfoLines(info), "\n");
    }
  }

  // ---------------------------------------------------------------- list_files

  const MaxListed: nat := 50

  /** The extension a filter uses: a leading `.` is added when missing. */
  function Extension(extension: string): string {
    if StartsWith(extension, ".") then extension else "." + extension
  }

  /** The normalised extension starts with `.` and ends with the given one, and is unchanged when it already had the dot. */
  lemma ExtensionRule(extension: string)
    ensures StartsWith(Extension(extension), ".")
    ensures EndsWith(Extension(extension), extension)
    ensures StartsWith(extension, ".") ==> Extension(extension) == extension
    ensures !StartsWith(extension, ".") ==> Extension(extension) == "." + extension
  {
    var e := Extension(extension);
    if !StartsWith(extension, ".") {
      assert e[|e| - |extension|..] == extension;
    }
  }

  function HasExtension(ext: string): string -> bool {
    (f: string) => EndsWith(f, ext)
  }

  /** The files `list_files` counts: all of them, or those ending with the normalised extension when one is given. */
  function Selected(files: seq<string>, extension: Option<string>): seq<string> {
    if extension.Some? && extension.value != "" then Filter(files, HasExtension(Extension(extension.value))) else files
  }

  /** With an extension, a file is listed exactly when it is in the tree and ends with the normalised extension. */
  lemma SelectedRule(files: seq<string>, extension: Option<string>, f: string)
    ensures extension.None? || extension == Some("") ==> Selected(files, extension) == files
    ensures extension.Some? && extension.value != "" ==>
      forall k :: 0 <= k < |Selected(files, extension)| ==> EndsWith(Selected(files, extension)[k], Extension(extension.value))
    ensures extension.Some? && extension.value != "" ==>
      (f in Selected(files, extension) <==> f in files && EndsWith(f, Extension(extension.value)))
  {
    if extension.Some? && extension.value != "" {
      FilterMembers(files, HasExtension(Extension(extension.value)), f);
    }
  }

  /** The header line giving the count after filtering. */
  function ListingHeader(repo: string, total: nat): string {
    "Files in '" + repo + "' (" + NatToString(total) + " total):\n"
  }

  /** The closing line for the files not shown. */
  function MoreLine(total: nat): string
    requires total > MaxListed
  {
    "\n  ... and " + NatToString(total - MaxListed) + " more"
  }

  /** The lines of a listing of `files`, the filtered tree. */
  function ListingLines(repo: string, files: seq<string>): seq<string> {
    var shown := Take(files, MaxListed);
    [ListingHeader(repo, |files|)]
    + seq(|shown|, i requires 0 <= i < |shown| => "  " + shown[i])
    + (if |files| > MaxListed then [MoreLine(|files|)] else [])
  }

  /**
   * The header, then the first fifty files in order, then the "more" line,
   * which appears (as the only line starting with a newline) exactly when
   * there are more than fifty.
   */
  lemma ListingLinesRule(repo: string, files: seq<string>)
    ensures var n := if |files| <= MaxListed then |files| else MaxListed;
      |ListingLines(repo, files)| == 1 + n + (if |files| > MaxListed then 1 else 0)
      && ListingLines(repo, files)[0] == ListingHeader(repo, |files|)
      && forall i :: 0 <= i < n ==> ListingLines(repo, files)[1 + i] == "  " + files[i]
    ensures |files| > MaxListed ==> ListingLines(repo, files)[|ListingLines(repo, files)| - 1] == MoreLine(|files|)
    ensures (exists i :: 0 <= i < |ListingLines(repo, files)| && StartsWith(ListingLines(repo, files)[i], "\n"))
      <==> |files| > MaxListed
  {
    var lines := ListingLines(repo, files);
    var n := if |files| <= MaxListed then |files| else MaxListed;
    forall i | 0 <= i < |lines| && i < 1 + n
      ensures !StartsWith(lines[i], "\n")
    {
      if i == 0 {
        assert lines[0][0] == 'F';
      } else {
        assert lines[i][0] == ' ';
      }
    }
    if |files| > MaxListed {
      assert lines[|lines| - 1][..1] == "\n";
    }
  }

  /** What `list_files` returns for the tree it fetched. */
  function ListFilesText(repo: string, tree: seq<string>, extension: Option<string>): string {
    if tree == [] then "Could not fetch file tree for '" + repo + "'"
    else Join(ListingLines(repo, Selected(tree, extension)), "\n")
  }

  /**
   * An empty tree is reported before any filtering; a non-empty tree that the
   * extension filters down to nothing gives a bare "(0 total)" header.
   */
  lemma ListFilesTextRule(repo: string, tree: seq<string>, extension: Option<string>)
    ensures tree == [] ==> ListFilesText(repo, tree, extension) == "Could not fetch file tree for '" + repo + "'"
    ensures tree != [] ==>
      StartsWith(ListFilesText(repo, tree, extension), ListingHeader(repo, |Selected(tree, extension)|))
    ensures tree != [] && Selected(tree, extension) == [] ==>
      ListFilesText(repo, tree, extension) == "Files in '" + repo + "' (0 total):\n"
  {
    if tree != [] {
      var files := Selected(tree, extension);
      JoinHead(ListingLines(repo, files), "\n");
      if files == [] {
        assert ListingLines(repo, files) == [ListingHeader(repo, 0)];
      }
    }
  }

  /** The branch `list_files` asks for: the default branch, or `main` when the repository lookup fails. */
  function ListBranch(info: GitHub.RepoInfo): string {
    if info.RepoError? then "main" else info.defaultBranch
  }

  /** `list_files`. */
  function ListFiles(repo: string, extension: Option<string>, repoApi: GitHub.RepoApi, treeApi: GitHub.TreeApi): string {
    ListFilesText(repo, GitHub.RepoTree(repo, ListBranch(GitHub.GetRepoInfo(repo, repoApi)), treeApi), extension)
  }

  /** A failed repository lookup falls back to `main`; otherwise the repository's default branch is listed. */
  lemma ListFilesRule(repo: string, extension: Option<string>, repoApi: GitHub.RepoApi, treeApi: GitHub.TreeApi)
    ensures repoApi(repo).ApiError? ==>
      ListFiles(repo, extension, repoApi, treeApi) == ListFilesText(repo, GitHub.RepoTree(repo, "main", treeApi), extension)
    ensures repoApi(repo).Ok? ==>
      ListFiles(repo, extension, repoApi, treeApi)
      == ListFilesText(repo, GitHub.RepoTree(repo, repoApi(repo).body.defaultBranch, treeApi), extension)
  {
    GitHub.RepoInfoRule(repo, repoApi);
  }
}
