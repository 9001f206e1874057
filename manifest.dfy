/**
 * The manifest parser: `_extract_packages` and the `PACKAGE_FILES` table of
 * tools/packages.py. Each format branch is a loop over the file's lines (or over
 * the two dependency sections of a parsed package.json) that appends
 * (name, version) pairs; each is a method proved equal to a specification
 * function, and the rules the parser follows are proved about those functions.
 */
module Manifest {
  import opened Wrappers
  import opened Seqs
  import opened Text

  /** One (name, version constraint) pair taken from a manifest. */
  datatype PackageRef = PackageRef(name: string, version: string)

  // ---------------------------------------------------------------- the PACKAGE_FILES table

  /** The table's keys, in the table's order. */
  const ManifestNames: seq<string> :=
    ["package.json", "requirements.txt", "go.mod", "Cargo.toml", "pom.xml", "Gemfile", "composer.json"]

  /** `PACKAGE_FILES.get(filename)`: the registry platform of a manifest file name. */
  function PlatformOf(filename: string): Option<string> {
    if filename == "package.json" then Some("npm")
    else if filename == "requirements.txt" then Some("pypi")
    else if filename == "go.mod" then Some("go")
    else if filename == "Cargo.toml" then Some("cargo")
    else if filename == "pom.xml" then Some("maven")
    else if filename == "Gemfile" then Some("rubygems")
    else if filename == "composer.json" then Some("packagist")
    else None
  }

  /** Exactly the seven manifest names have a platform, and every platform name is non-empty. */
  lemma PlatformKnown(filename: string)
    ensures PlatformOf(filename).Some? <==> filename in ManifestNames
    ensures PlatformOf(filename).Some? ==> PlatformOf(filename).value != ""
  {
  }

  // ---------------------------------------------------------------- package.json

  /**
   * A value `json.loads` produced: an object, with its members in key order, or
   * any other JSON value. `shown` is how Python's f-string formatting prints the value.
   */
  datatype Json = JObject(members: seq<(string, Json)>, shown: string) | JLeaf(shown: string)

  /** `obj.get(key)` on an object's members. */
  function Member(members: seq<(string, Json)>, key: string): (r: Option<Json>)
    ensures r.Some? <==> exists k :: 0 <= k < |members| && members[k].0 == key
    ensures r.Some? ==> (key, r.value) in members
  {
    if members == [] then None
    else if members[0].0 == key then Some(members[0].1)
    else Member(members[1..], key)
  }

  /** `[(name, version) for name, version in items]`. */
  function Entries(items: seq<(string, Json)>): (r: seq<PackageRef>)
    ensures |r| == |items|
    ensures forall i :: 0 <= i < |items| ==> r[i] == PackageRef(items[i].0, items[i].1.shown)
    decreases |items|
  {
    if items == [] then []
    else Entries(items[..|items| - 1]) + [PackageRef(items[|items| - 1].0, items[|items| - 1].1.shown)]
  }

  /** One more item appends its entry. */
  lemma EntriesStep(items: seq<(string, Json)>, k: nat)
    requires k < |items|
    ensures Entries(items[..k + 1]) == Entries(items[..k]) + [PackageRef(items[k].0, items[k].1.shown)]
  {
    PrefixStep(items, k);
  }

  /**
   * `data.get(section, {}).items()`: the entries of one section, or `None` when
   * the section holds a value that is not an object (`.items()` raises).
   */
  function SectionEntries(members: seq<(string, Json)>, section: string): (r: Option<seq<PackageRef>>)
    ensures Member(members, section).None? ==> r == Some([])
    ensures Member(members, section).Some? && Member(members, section).value.JLeaf? ==> r.None?
    ensures Member(members, section).Some? && Member(members, section).value.JObject? ==>
      r == Some(Entries(Member(members, section).value.members))
  {
    match Member(members, section)
    case None => Some([])
    case Some(JLeaf(_)) => None
    case Some(JObject(items, _)) => Some(Entries(items))
  }

  /** The package.json branch: what it returns for the whole file text. */
  function PackageJsonEntries(content: string, parse: string -> Option<Json>): (r: seq<PackageRef>)
    ensures !Occurs(content, "{") ==> r == []
  {
    match IndexOf(content, "{")
    case None => []
    case Some(start) =>
      match parse(content[start..])
      case Some(JObject(members, _)) => ObjectEntries(members)
      case _ => []
  }

  /**
   * The loop over `("dependencies", "devDependencies")` on a parsed object: a
   * section that is not an object raises, which ends the loop and keeps the
   * entries appended before it.
   */
  function ObjectEntries(members: seq<(string, Json)>): seq<PackageRef>
  {
    match SectionEntries(members, "dependencies")
    case None => []
    case Some(deps) =>
      match SectionEntries(members, "devDependencies")
      case None => deps
      case Some(dev) => deps + dev
  }

  /** A document whose text from its first `{` parses to an object yields what the section loop gives on it. */
  lemma PackageJsonObject(content: string, parse: string -> Option<Json>, start: nat,
                          members: seq<(string, Json)>, shown: string)
    requires IndexOf(content, "{") == Some(start)
    requires parse(content[start..]) == Some(JObject(members, shown))
    ensures PackageJsonEntries(content, parse) == ObjectEntries(members)
  {
  }

  /**
   * The package.json result for a document whose text from its first `{` parses
   * to an object: the `dependencies` entries in key order, then the
   * `devDependencies` entries in key order; a section that is not an object
   * ends the parse there, keeping the entries appended before it.
   */
  lemma PackageJsonSections(content: string, parse: string -> Option<Json>, start: nat,
                            members: seq<(string, Json)>, shown: string)
    requires IndexOf(content, "{") == Some(start)
    requires parse(content[start..]) == Some(JObject(members, shown))
    ensures SectionEntries(members, "dependencies").None? ==> PackageJsonEntries(content, parse) == []
    ensures SectionEntries(members, "dependencies").Some? && SectionEntries(members, "devDependencies").None? ==>
      PackageJsonEntries(content, parse) == SectionEntries(members, "dependencies").value
    ensures SectionEntries(members, "dependencies").Some? && SectionEntries(members, "devDependencies").Some? ==>
      PackageJsonEntries(content, parse) ==
        SectionEntries(members, "dependencies").value + SectionEntries(members, "devDependencies").value
  {
    PackageJsonObject(content, parse, start, members, shown);
  }

  /** The section loop over an object with two object-valued sections: both sections' entries, in order. */
  lemma ObjectCount(members: seq<(string, Json)>, deps: seq<(string, Json)>, dev: seq<(string, Json)>,
                    depsShown: string, devShown: string)
    requires Member(members, "dependencies") == Some(JObject(deps, depsShown))
    requires Member(members, "devDependencies") == Some(JObject(dev, devShown))
    ensures ObjectEntries(members) == Entries(deps) + Entries(dev)
  {
  }

  /** N dependencies and M devDependencies give the N entries of the first, then the M entries of the second. */
  lemma PackageJsonCount(content: string, parse: string -> Option<Json>, start: nat, shown: string,
                         members: seq<(string, Json)>, deps: seq<(string, Json)>, dev: seq<(string, Json)>,
                         depsShown: string, devShown: string)
    requires IndexOf(content, "{") == Some(start)
    requires parse(content[start..]) == Some(JObject(members, shown))
    requires Member(members, "dependencies") == Some(JObject(deps, depsShown))
    requires Member(members, "devDependencies") == Some(JObject(dev, devShown))
    ensures PackageJsonEntries(content, parse) == Entries(deps) + Entries(dev)
    ensures |PackageJsonEntries(content, parse)| == |deps| + |dev|
  {
    PackageJsonObject(content, parse, start, members, shown);
    ObjectCount(members, deps, dev, depsShown, devShown);
  }

  /** One pass of the section loop: append the section's items one by one, or raise. */
  method AppendSection(members: seq<(string, Json)>, section: string, before: seq<PackageRef>)
    returns (packages: seq<PackageRef>, raised: bool)
    ensures SectionEntries(members, section).None? ==> raised && packages == before
    ensures SectionEntries(members, section).Some? ==> !raised && packages == before + SectionEntries(members, section).value
  {
    packages := before;
    var value := Member(members, section);
    if value.Some? && value.value.JLeaf? {
      return packages, true;
    }
    raised := false;
    var items := if value.None? then [] else value.value.members;
    var k := 0;
    while k < |items|
      invariant 0 <= k <= |items|
      invariant packages == before + Entries(items[..k])
    {
      EntriesStep(items, k);
      packages := packages + [PackageRef(items[k].0, items[k].1.shown)];
      k := k + 1;
    }
    PrefixWhole(items);
  }

  /** The loop over the two section names on a parsed object, unrolled into two passes. */
  method ExtractSections(members: seq<(string, Json)>) returns (packages: seq<PackageRef>)
    ensures packages == ObjectEntries(members)
  {
    var raised;
    packages, raised := AppendSection(members, "dependencies", []);
    if !raised {
      packages, raised := AppendSection(members, "devDependencies", packages);
    }
  }

  /** The package.json branch as the source writes it. */
  method ExtractPackageJson(content: string, parse: string -> Option<Json>) returns (packages: seq<PackageRef>)
    ensures packages == PackageJsonEntries(content, parse)
  {
    var start := IndexOf(content, "{");
    if start.None? {
      return [];
    }
    var data := parse(content[start.value..]);
    if data.None? || data.value.JLeaf? {
      // json.loads or `.get` raised before anything was appended
      return [];
    }
    PackageJsonObject(content, parse, start.value, data.value.members, data.value.shown);
    packages := ExtractSections(data.value.members);
  }

  // ---------------------------------------------------------------- requirements.txt

  /** A stripped requirements.txt line that yields nothing: blank, a comment or an option. */
  predicate RequirementSkipped(t: string) {
    t == [] || StartsWith(t, "#") || StartsWith(t, "-")
  }

  /** `name, version = t.split(op, 1)` cut at `i`, giving the stripped name and `op` before the stripped version. */
  function SplitPair(t: string, op: string, i: nat): PackageRef
    requires i + |op| <= |t|
  {
    PackageRef(Strip(t[..i]), op + Strip(t[i + |op|..]))
  }

  /** `ref` is what splitting `t` at the first occurrence of `op` gives. */
  ghost predicate SplitAtFirst(t: string, op: string, ref: PackageRef) {
    exists i :: FirstAt(t, op, i) && ref == SplitPair(t, op, i)
  }

  /** What one requirements.txt line yields. `==` is tested before `>=`. */
  function RequirementLine(line: string): (r: Option<PackageRef>)
    ensures r.None? <==> RequirementSkipped(Strip(line))
    ensures r.Some? && Occurs(Strip(line), "==") ==> SplitAtFirst(Strip(line), "==", r.value)
    ensures r.Some? && !Occurs(Strip(line), "==") && Occurs(Strip(line), ">=") ==>
      SplitAtFirst(Strip(line), ">=", r.value)
    ensures r.Some? && !Occurs(Strip(line), "==") && !Occurs(Strip(line), ">=") ==>
      r.value == PackageRef(Strip(line), "")
  {
    var t := Strip(line);
    if RequirementSkipped(t) then None
    else if Contains(t, "==") then Some(SplitPair(t, "==", IndexOf(t, "==").value))
    else if Contains(t, ">=") then Some(SplitPair(t, ">=", IndexOf(t, ">=").value))
    else
      StripIdempotent(line);
      Some(PackageRef(Strip(t), ""))
  }

  /** Every emitted constraint is empty or begins with the operator it was split on. */
  lemma RequirementConstraint(line: string)
    requires RequirementLine(line).Some?
    ensures Occurs(Strip(line), "==") ==> StartsWith(RequirementLine(line).value.version, "==")
    ensures !Occurs(Strip(line), "==") && Occurs(Strip(line), ">=") ==>
      StartsWith(RequirementLine(line).value.version, ">=")
    ensures RequirementLine(line).value.version == [] <==> !Occurs(Strip(line), "==") && !Occurs(Strip(line), ">=")
  {
  }

  /** Text whose two ends are not whitespace (the empty text included). */
  predicate Trimmed(s: string) {
    s != [] ==> !IsSpace(s[0]) && !IsSpace(s[|s| - 1])
  }

  /** Cutting `n + op + v` right after `n` gives back `n` and `op + v` when both are already stripped. */
  lemma SplitPairConcat(n: string, op: string, v: string)
    requires Trimmed(n) && Trimmed(v)
    ensures SplitPair(n + op + v, op, |n|) == PackageRef(n, op + v)
  {
    var t := n + op + v;
    assert t[..|n|] == n;
    assert t[|n| + |op|..] == v;
    StripByFixed(n, IsSpace);
    StripByFixed(v, IsSpace);
  }

  /** A stripped line that starts with neither `#` nor `-` is not skipped. */
  lemma NotSkipped(t: string)
    requires t != [] && t[0] != '#' && t[0] != '-'
    ensures !RequirementSkipped(t)
  {
    assert t[..1] == [t[0]];
  }

  /** A line `n + op + v` with a proper name is already stripped and is not skipped. */
  lemma RequirementKept(n: string, op: string, v: string)
    requires n != [] && Trimmed(n) && n[0] != '#' && n[0] != '-'
    requires op != [] && !IsSpace(op[|op| - 1]) && Trimmed(v)
    ensures Strip(n + op + v) == n + op + v
    ensures !RequirementSkipped(n + op + v)
  {
    var t := n + op + v;
    assert t[0] == n[0];
    assert t[|t| - 1] == if v == [] then op[|op| - 1] else v[|v| - 1];
    NotSkipped(t);
    StripByFixed(t, IsSpace);
  }

  /** A pinned requirement written out is parsed back into its name and its `==` constraint. */
  lemma RequirementPinnedRoundTrip(n: string, v: string)
    requires n != [] && Trimmed(n) && n[0] != '#' && n[0] != '-'
    requires '=' !in n && Trimmed(v)
    ensures RequirementLine(n + "==" + v) == Some(PackageRef(n, "==" + v))
  {
    var t := n + "==" + v;
    RequirementKept(n, "==", v);
    IndexAfterPrefix(n, "==", v);
    SplitPairConcat(n, "==", v);
    assert RequirementLine(t) == Some(SplitPair(t, "==", |n|));
  }

  /** `n + ">=" + v` holds no `==` when neither `n` nor `v` holds an `=`. */
  lemma NoPinInMinimum(n: string, v: string)
    requires '=' !in n && '=' !in v
    ensures !Occurs(n + ">=" + v, "==")
  {
    var t := n + ">=" + v;
    assert forall i :: 0 <= i < |n| ==> t[i] == n[i];
    assert t[|n|] == '>';
    assert forall i :: |n| + 2 <= i < |t| ==> t[i] == v[i - |n| - 2];
    forall j | 0 <= j
      ensures !OccursAt(t, "==", j)
    {
      if j + 2 <= |t| {
        assert t[j..j + 2][0] == t[j] && t[j..j + 2][1] == t[j + 1];
      }
    }
  }

  /** A minimum-bound requirement written out is parsed back into its name and its `>=` constraint. */
  lemma RequirementMinimumRoundTrip(n: string, v: string)
    requires n != [] && Trimmed(n) && n[0] != '#' && n[0] != '-'
    requires '=' !in n && '>' !in n && '=' !in v && Trimmed(v)
    ensures RequirementLine(n + ">=" + v) == Some(PackageRef(n, ">=" + v))
  {
    var t := n + ">=" + v;
    RequirementKept(n, ">=", v);
    NoPinInMinimum(n, v);
    IndexAfterPrefix(n, ">=", v);
    SplitPairConcat(n, ">=", v);
    assert RequirementLine(t) == Some(SplitPair(t, ">=", |n|));
  }

  /** The requirements.txt branch as the source writes it: one pass over the lines, appending. */
  method ExtractRequirements(content: string) returns (packages: seq<PackageRef>)
    ensures packages == FilterMap(SplitOn(content, '\n'), RequirementLine)
  {
    var lines := SplitOn(content, '\n');
    packages := [];
    var k := 0;
    while k < |lines|
      invariant 0 <= k <= |lines|
      invariant packages == FilterMap(lines[..k], RequirementLine)
    {
      FilterMapStep(lines, k, RequirementLine);
      var entry := RequirementLine(lines[k]);
      if entry.Some? {
        packages := packages + [entry.value];
      }
      k := k + 1;
    }
    PrefixWhole(lines);
  }

  // ---------------------------------------------------------------- Cargo.toml

  /** The two section headers that switch the parser into its dependency state. */
  predicate IsDepsHeader(t: string) {
    t == "[dependencies]" || t == "[dev-dependencies]"
  }

  /** `name, version = t.split("=", 1)` with the name stripped and the value stripped of whitespace, then of `"`. */
  function CargoEntry(t: string): (r: PackageRef)
    requires Occurs(t, "=")
    ensures exists i :: FirstAt(t, "=", i) && r.name == Strip(t[..i]) && r.version == StripChar(Strip(t[i + 1..]), '"')
    ensures r.version != [] ==> r.version[0] != '"' && r.version[|r.version| - 1] != '"'
  {
    var i := IndexOf(t, "=").value;
    PackageRef(Strip(t[..i]), StripChar(Strip(t[i + 1..]), '"'))
  }

  /** A line that opens a TOML section. */
  predicate OpensSection(line: string) {
    StartsWith(Strip(line), "[")
  }

  /** A line that opens one of the two dependency sections. */
  predicate OpensDeps(line: string) {
    IsDepsHeader(Strip(line))
  }

  /** The entry a line inside a dependency section yields: one exactly when it contains `=`. */
  function CargoItem(line: string): (r: Option<PackageRef>)
    ensures r.Some? <==> Occurs(Strip(line), "=")
    ensures r.Some? ==> r.value == CargoEntry(Strip(line))
  {
    var t := Strip(line);
    if Contains(t, "=") then Some(CargoEntry(t)) else None
  }

  /** One line of the Cargo.toml loop: the next value of `in_deps` and the entry the line yields. */
  function CargoStep(inDeps: bool, line: string): (bool, Option<PackageRef>)
  {
    if OpensDeps(line) then (true, None)
    else if OpensSection(line) then (false, None)
    else if inDeps then (true, CargoItem(line))
    else (false, None)
  }

  /** The value of `in_deps` after the Cargo.toml loop has read `lines`, starting outside any section. */
  function CargoState(lines: seq<string>): bool
  {
    Latch(lines, OpensDeps, OpensSection)
  }

  /** The entries the Cargo.toml loop has appended after reading `lines`. */
  function CargoEntries(lines: seq<string>): seq<PackageRef>
    decreases |lines|
  {
    if lines == [] then []
    else
      var init := lines[..|lines| - 1];
      CargoEntries(init) + OptionToSeq(CargoStep(CargoState(init), lines[|lines| - 1]).1)
  }

  lemma CargoStepAt(lines: seq<string>, k: nat)
    requires k < |lines|
    ensures CargoState(lines[..k + 1]) == CargoStep(CargoState(lines[..k]), lines[k]).0
    ensures CargoEntries(lines[..k + 1]) == CargoEntries(lines[..k]) + OptionToSeq(CargoStep(CargoState(lines[..k]), lines[k]).1)
  {
    PrefixStep(lines, k);
    LatchStep(lines, k, OpensDeps, OpensSection);
  }

  /** Both dependency headers start with `[`, so they open a section too. */
  lemma DepsHeaderOpensSection(line: string)
    ensures OpensDeps(line) ==> OpensSection(line)
  {
    var t := Strip(line);
    if IsDepsHeader(t) {
      assert t[..1] == "[";
    }
  }

  /** After `lines`, the last line that opens a section opens a dependency section. */
  ghost predicate InDepsAfter(lines: seq<string>) {
    exists j :: 0 <= j < |lines| && OpensDeps(lines[j])
      && forall m :: j < m < |lines| ==> !OpensSection(lines[m])
  }

  /** The state flag is set exactly when the most recent `[`-line was `[dependencies]` or `[dev-dependencies]`. */
  lemma CargoStateIsLastSection(lines: seq<string>)
    ensures CargoState(lines) <==> InDepsAfter(lines)
  {
    LatchIsLastSwitch(lines, OpensDeps, OpensSection);
    forall m | 0 <= m < |lines|
      ensures Idle(lines[m], OpensDeps, OpensSection) <==> !OpensSection(lines[m])
    {
      DepsHeaderOpensSection(lines[m]);
    }
    if SwitchedOnLast(lines, OpensDeps, OpensSection) {
      var j :| 0 <= j < |lines| && OpensDeps(lines[j])
        && forall m :: j < m < |lines| ==> Idle(lines[m], OpensDeps, OpensSection);
      assert forall m :: j < m < |lines| ==> !OpensSection(lines[m]);
    }
    if InDepsAfter(lines) {
      var j :| 0 <= j < |lines| && OpensDeps(lines[j])
        && forall m :: j < m < |lines| ==> !OpensSection(lines[m]);
      assert forall m :: j < m < |lines| ==> Idle(lines[m], OpensDeps, OpensSection);
    }
  }

  /**
   * Appending one line: it yields an entry exactly when the parser is inside a
   * dependency section, the line does not open a section, and it contains `=`.
   */
  lemma CargoEntryRule(lines: seq<string>, line: string)
    ensures CargoEntries(lines + [line]) == CargoEntries(lines) +
      (if InDepsAfter(lines) && !OpensSection(line) && Occurs(Strip(line), "=") then [CargoEntry(Strip(line))] else [])
  {
    SnocPrefix(lines, line);
    CargoStateIsLastSection(lines);
    DepsHeaderOpensSection(line);
    assert CargoEntries(lines + [line]) == CargoEntries(lines) + OptionToSeq(CargoStep(CargoState(lines), line).1);
  }

  /** Where `split("=", 1)` cuts an assignment whose name holds no `=`. */
  lemma AssignmentCut(n: string, v: string)
    requires '=' !in n
    ensures IndexOf(n + " = \"" + v + "\"", "=") == Some(|n| + 1)
    ensures (n + " = \"" + v + "\"")[..|n| + 1] == n + " "
    ensures (n + " = \"" + v + "\"")[|n| + 2..] == " \"" + v + "\""
  {
    var t := n + " = \"" + v + "\"";
    var after := " \"" + v + "\"";
    assert t == (n + " ") + "=" + after;
    IndexAfterPrefix(n + " ", "=", after);
  }

  lemma StripNameSpace(n: string)
    requires Trimmed(n)
    ensures Strip(n + " ") == n
  {
    assert [] + n + " " == n + " ";
    StripPadded([], n, " ", IsSpace);
  }

  lemma StripLeadingSpace(v: string)
    ensures Strip(" \"" + v + "\"") == "\"" + v + "\""
  {
    var quoted := "\"" + v + "\"";
    assert " " + quoted + [] == " \"" + v + "\"";
    StripPadded(" ", quoted, [], IsSpace);
  }

  lemma StripQuotes(v: string)
    requires v != [] ==> v[0] != '"' && v[|v| - 1] != '"'
    ensures StripChar("\"" + v + "\"", '"') == v
  {
    StripPadded("\"", v, "\"", IsChar('"'));
  }

  lemma StripQuotedValue(v: string)
    requires v != [] ==> v[0] != '"' && v[|v| - 1] != '"'
    ensures StripChar(Strip(" \"" + v + "\""), '"') == v
  {
    StripLeadingSpace(v);
    StripQuotes(v);
  }

  /** A `name = "value"` assignment is parsed back into its name and its unquoted value. */
  lemma CargoAssignmentRoundTrip(n: string, v: string)
    requires '=' !in n && Trimmed(n)
    requires v != [] ==> v[0] != '"' && v[|v| - 1] != '"'
    ensures Occurs(n + " = \"" + v + "\"", "=")
    ensures CargoEntry(n + " = \"" + v + "\"") == PackageRef(n, v)
  {
    AssignmentCut(n, v);
    StripNameSpace(n);
    StripQuotedValue(v);
  }

  /** The Cargo.toml branch as the source writes it: one pass over the lines with the `in_deps` flag. */
  method ExtractCargo(content: string) returns (packages: seq<PackageRef>)
    ensures packages == CargoEntries(SplitOn(content, '\n'))
  {
    var lines := SplitOn(content, '\n');
    var inDeps := false;
    packages := [];
    var k := 0;
    while k < |lines|
      invariant 0 <= k <= |lines|
      invariant inDeps == CargoState(lines[..k])
      invariant packages == CargoEntries(lines[..k])
    {
      CargoStepAt(lines, k);
      var (next, entry) := CargoStep(inDeps, lines[k]);
      inDeps := next;
      if entry.Some? {
        packages := packages + [entry.value];
      }
      k := k + 1;
    }
    PrefixWhole(lines);
  }

  // ---------------------------------------------------------------- go.mod

  /** A stripped go.mod line the parser skips: blank, a comment, or starting with `module` or `go `. */
  predicate GoSkipped(t: string) {
    t == [] || StartsWith(t, "//") || StartsWith(t, "module") || StartsWith(t, "go ")
  }

  /** What one go.mod line yields: its first two whitespace-separated tokens. */
  function GoLine(line: string): (r: Option<PackageRef>)
    ensures r.Some? <==> !GoSkipped(Strip(line)) && |Words(Strip(line))| >= 2
  {
    var t := Strip(line);
    if GoSkipped(t) then None
    else
      var parts := Words(t);
      if |parts| >= 2 then Some(PackageRef(parts[0], parts[1])) else None
  }

  /** The emitted pair is the line's first two tokens, both non-empty and free of whitespace. */
  lemma GoLineTokens(line: string)
    requires GoLine(line).Some?
    ensures GoLine(line).value == PackageRef(Words(Strip(line))[0], Words(Strip(line))[1])
    ensures GoLine(line).value.name != [] && NoSpace(GoLine(line).value.name)
    ensures GoLine(line).value.version != [] && NoSpace(GoLine(line).value.version)
  {
    WordsShape(Strip(line));
  }

  /** `a + " " + b` does not start like a comment. */
  lemma NotGoComment(a: string, b: string)
    requires a != [] && NoSpace(a) && !StartsWith(a, "//")
    ensures !StartsWith(a + " " + b, "//")
  {
    var t := a + " " + b;
    if |a| >= 2 {
      assert t[..2] == a[..2];
    } else {
      assert t[1] == ' ';
    }
  }

  /** `a + " " + b` does not start like a `module` directive. */
  lemma NotGoModule(a: string, b: string)
    requires a != [] && NoSpace(a) && !StartsWith(a, "module")
    ensures !StartsWith(a + " " + b, "module")
  {
    var t := a + " " + b;
    if |t| >= 6 {
      if |a| >= 6 {
        assert t[..6] == a[..6];
      } else {
        assert t[|a|] == ' ';
        assert t[..6][|a|] == ' ';
      }
    }
  }

  /** `a + " " + b` does not start like a `go` directive. */
  lemma NotGoVersion(a: string, b: string)
    requires a != [] && NoSpace(a) && a != "go"
    ensures !StartsWith(a + " " + b, "go ")
  {
    var t := a + " " + b;
    if |a| >= 3 {
      assert t[2] == a[2];
    } else if |a| == 2 {
      assert t[..2] == a;
    } else {
      assert t[1] == ' ';
    }
  }

  /** Two tokens joined by a space: the line is already stripped, and splitting it gives the two tokens back. */
  lemma GoPair(a: string, b: string)
    requires a != [] && NoSpace(a) && b != [] && NoSpace(b)
    ensures Strip(a + " " + b) == a + " " + b
    ensures Words(a + " " + b) == [a, b]
  {
    StripJoined(a, " ", b);
    WordsOfPair(a, b);
  }

  /** A `path version` line is parsed back into its two tokens, unless it looks like a directive. */
  lemma GoLineRoundTrip(a: string, b: string)
    requires a != [] && NoSpace(a) && b != [] && NoSpace(b)
    requires !StartsWith(a, "//") && !StartsWith(a, "module") && a != "go"
    ensures GoLine(a + " " + b) == Some(PackageRef(a, b))
  {
    var t := a + " " + b;
    GoPair(a, b);
    NotGoComment(a, b);
    NotGoModule(a, b);
    NotGoVersion(a, b);
    assert !GoSkipped(t);
    GoLineTokens(t);
  }

  /** The block opener `require (` of a go.mod file is itself taken as a package named `require`. */
  lemma GoRequireBlockOpener()
    ensures GoLine("require (") == Some(PackageRef("require", "("))
  {
    assert "require (" == "require" + " " + "(";
    assert "require"[..6][0] == 'r' && "require"[..2][0] == 'r';
    GoLineRoundTrip("require", "(");
  }

  /** The go.mod branch as the source writes it: one pass over the lines, appending. */
  method ExtractGoMod(content: string) returns (packages: seq<PackageRef>)
    ensures packages == FilterMap(SplitOn(content, '\n'), GoLine)
  {
    var lines := SplitOn(content, '\n');
    packages := [];
    var k := 0;
    while k < |lines|
      invariant 0 <= k <= |lines|
      invariant packages == FilterMap(lines[..k], GoLine)
    {
      FilterMapStep(lines, k, GoLine);
      var entry := GoLine(lines[k]);
      if entry.Some? {
        packages := packages + [entry.value];
      }
      k := k + 1;
    }
    PrefixWhole(lines);
  }

  // ---------------------------------------------------------------- _extract_packages

  /** What `_extract_packages(filename, content)` returns. */
  function Extracted(filename: string, content: string, parse: string -> Option<Json>): seq<PackageRef> {
    if filename == "package.json" then PackageJsonEntries(content, parse)
    else if filename == "requirements.txt" then FilterMap(SplitOn(content, '\n'), RequirementLine)
    else if filename == "Cargo.toml" then CargoEntries(SplitOn(content, '\n'))
    else if filename == "go.mod" then FilterMap(SplitOn(content, '\n'), GoLine)
    else []
  }

  /** Every other file name, the three further manifest names included, yields nothing. */
  lemma ExtractedUnknown(filename: string, content: string, parse: string -> Option<Json>)
    requires filename !in ["package.json", "requirements.txt", "Cargo.toml", "go.mod"]
    ensures Extracted(filename, content, parse) == []
  {
  }

  /** `_extract_packages`: dispatch on the file name to the branch for its format. */
  method ExtractPackages(filename: string, content: string, parse: string -> Option<Json>)
    returns (packages: seq<PackageRef>)
    ensures packages == Extracted(filename, content, parse)
  {
    if filename == "package.json" {
      packages := ExtractPackageJson(content, parse);
    } else if filename == "requirements.txt" {
      packages := ExtractRequirements(content);
    } else if filename == "Cargo.toml" {
      packages := ExtractCargo(content);
    } else if filename == "go.mod" {
      packages := ExtractGoMod(content);
    } else {
      packages := [];
    }
  }
}
