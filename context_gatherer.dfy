/** The context gatherer: the project's file list from a walk of its directories, its
    dependencies from `package.json`, `requirements.txt` and `go.mod`, the frameworks those
    reveal, the declarations scraped from at most fifty source files, and the Markdown
    summary of all of it that is handed to the models. */
module ContextGatherer {
  import opened Common
  import opened Paths

  // ---------------------------------------------------------------------------
  // Records: string-valued objects with their keys in insertion order

  /** The own properties of a `Record<string, string>`, in the order `Object.entries` lists them. */
  type Record = seq<(string, string)>

  predicate DistinctKeys(d: Record) {
    forall i, j :: 0 <= i < j < |d| ==> d[i].0 != d[j].0
  }

  /** The position of `key` in `d`, if it is there. */
  function KeyIndex(d: Record, key: string): (r: Option<nat>)
    ensures r.Some? ==> r.value < |d| && d[r.value].0 == key
    ensures r.Some? ==> forall j :: 0 <= j < r.value ==> d[j].0 != key
    ensures r.None? ==> forall j :: 0 <= j < |d| ==> d[j].0 != key
  {
    if |d| == 0 then None
    else if d[0].0 == key then Some(0)
    else match KeyIndex(d[1..], key)
      case None => None
      case Some(i) => Some(i + 1)
  }

  /** `d[key]`, `undefined` being `None`. */
  function Lookup(d: Record, key: string): Option<string> {
    match KeyIndex(d, key)
    case None => None
    case Some(i) => Some(d[i].1)
  }

  /** Two records with the same keys in the same places find every key in the same place. */
  lemma SameKeysSameIndex(d: Record, e: Record, key: string)
    requires |d| == |e| && forall i :: 0 <= i < |d| ==> d[i].0 == e[i].0
    ensures KeyIndex(d, key) == KeyIndex(e, key)
  {
    var a := KeyIndex(d, key);
    var b := KeyIndex(e, key);
    if a.Some? && b.Some? {
      assert !(a.value < b.value) && !(b.value < a.value);
    }
  }

  /** A key's position is the first place it occurs. */
  lemma KeyIndexAt(d: Record, key: string, k: nat)
    requires k < |d| && d[k].0 == key && forall j :: 0 <= j < k ==> d[j].0 != key
    ensures KeyIndex(d, key) == Some(k)
  {
  }

  /** A new key appended last is found last, and every other key where it was. */
  lemma KeyIndexAppend(d: Record, key: string, value: string, k: string)
    requires KeyIndex(d, key).None?
    ensures KeyIndex(d + [(key, value)], k) == if k == key then Some(|d|) else KeyIndex(d, k)
  {
    var r := d + [(key, value)];
    if k == key {
      KeyIndexAt(r, key, |d|);
    } else {
      SameKeysSameIndex(r[..|d|], d, k);
      match KeyIndex(d, k)
      case Some(i) => KeyIndexAt(r, k, i);
      case None => assert forall j :: 0 <= j < |r| ==> r[j].0 != k;
    }
  }

  /** `d[key] = value`: an existing key keeps its place, a new one goes last. */
  function Assign(d: Record, key: string, value: string): (r: Record)
    ensures DistinctKeys(d) ==> DistinctKeys(r)
    ensures Lookup(r, key) == Some(value)
    ensures forall k :: k != key ==> Lookup(r, k) == Lookup(d, k)
    ensures |d| <= |r| && forall i :: 0 <= i < |d| ==> r[i].0 == d[i].0
  {
    match KeyIndex(d, key)
    case Some(i) =>
      var r := d[i := (key, value)];
      forall k ensures KeyIndex(r, k) == KeyIndex(d, k) {
        SameKeysSameIndex(r, d, k);
      }
      r
    case None =>
      var r := d + [(key, value)];
      forall k ensures KeyIndex(r, k) == if k == key then Some(|d|) else KeyIndex(d, k) {
        KeyIndexAppend(d, key, value, k);
      }
      r
  }

  /** `Object.assign(d, source)` and every loop that assigns entries one after the other. */
  function AssignAll(d: Record, source: Record): (r: Record)
  {
    if |source| == 0 then d
    else
      var last := source[|source| - 1];
      Assign(AssignAll(d, source[..|source| - 1]), last.0, last.1)
  }

  /** The value the last entry for `key` in `source` carries. */
  function LastValue(source: Record, key: string): Option<string> {
    if |source| == 0 then None
    else if source[|source| - 1].0 == key then Some(source[|source| - 1].1)
    else LastValue(source[..|source| - 1], key)
  }

  /** The first of two lookups that finds something. */
  function Either(first: Option<string>, second: Option<string>): Option<string> {
    if first.Some? then first else second
  }

  /** After the assignments, a key holds the value of the last assignment to it, or what
      it held before when none assigned it. */
  lemma {:induction false} AssignAllLookup(d: Record, source: Record, key: string)
    ensures Lookup(AssignAll(d, source), key) == Either(LastValue(source, key), Lookup(d, key))
    decreases |source|
  {
    if |source| > 0 {
      AssignAllLookup(d, source[..|source| - 1], key);
    }
  }

  lemma {:induction false} AssignAllDistinct(d: Record, source: Record)
    requires DistinctKeys(d)
    ensures DistinctKeys(AssignAll(d, source))
    decreases |source|
  {
    if |source| > 0 {
      AssignAllDistinct(d, source[..|source| - 1]);
    }
  }

  lemma AssignAllAppend(d: Record, done: Record, e: (string, string))
    ensures AssignAll(d, done + [e]) == Assign(AssignAll(d, done), e.0, e.1)
  {
    assert (done + [e])[..|done|] == done;
  }

  lemma AssignAllSnoc(d: Record, source: Record, i: nat)
    requires i < |source|
    ensures AssignAll(d, source[..i + 1]) == Assign(AssignAll(d, source[..i]), source[i].0, source[i].1)
  {
    assert source[..i + 1][..i] == source[..i];
  }

  // ---------------------------------------------------------------------------
  // requirements.txt

  /** The characters that end a requirement's name: `=`, `<`, `>`, `~` and `!`. */
  predicate IsSpecifierChar(c: char) {
    c == '=' || c == '<' || c == '>' || c == '~' || c == '!'
  }

  /** The end of the run of non-specifier characters that starts at `i`. */
  function NameEnd(line: string, i: nat): (r: nat)
    requires i <= |line|
    ensures i <= r <= |line| && (r == |line| || IsSpecifierChar(line[r]))
    ensures forall j :: i <= j < r ==> !IsSpecifierChar(line[j])
    decreases |line| - i
  {
    if i < |line| && !IsSpecifierChar(line[i]) then NameEnd(line, i + 1) else i
  }

  /** `line.match(/^([^=<>~!]+)/)`, its group trimmed: the name a line declares, if any. */
  function RequirementName(line: string): Option<string> {
    var k := NameEnd(line, 0);
    if k == 0 then None else Some(Trim(line[..k]))
  }

  /** A line names a requirement exactly when it does not open with a specifier character,
      and the name is the trimmed text before the first one, which it never contains. */
  lemma RequirementNameShape(line: string)
    ensures RequirementName(line).Some? <==> line != [] && !IsSpecifierChar(line[0])
    ensures RequirementName(line).Some? ==>
              var k := NameEnd(line, 0);
              RequirementName(line).value == Trim(line[..k])
              && (k == |line| || IsSpecifierChar(line[k]))
              && forall j :: 0 <= j < |RequirementName(line).value| ==> !IsSpecifierChar(RequirementName(line).value[j])
  {
    var k := NameEnd(line, 0);
    if k > 0 {
      TrimShape(line[..k]);
    }
  }

  /** The entries the `forEach` over the lines assigns: each named requirement at 'latest'. */
  function RequirementEntries(lines: seq<string>): (r: Record)
    ensures forall i :: 0 <= i < |r| ==> r[i].1 == "latest"
  {
    if |lines| == 0 then []
    else
      var init := RequirementEntries(lines[..|lines| - 1]);
      match RequirementName(lines[|lines| - 1])
      case None => init
      case Some(name) => init + [(name, "latest")]
  }

  /** A requirement always reads 'latest', whatever version the line pins. */
  lemma {:induction false} RequirementsAreLatest(lines: seq<string>, key: string)
    ensures LastValue(RequirementEntries(lines), key).Some? ==> LastValue(RequirementEntries(lines), key) == Some("latest")
    decreases |lines|
  {
    var r := RequirementEntries(lines);
    if |r| > 0 {
      if r[|r| - 1].0 != key {
        LastValueLatest(r[..|r| - 1], key);
      }
    }
  }

  lemma {:induction false} LastValueLatest(r: Record, key: string)
    requires forall i :: 0 <= i < |r| ==> r[i].1 == "latest"
    ensures LastValue(r, key).Some? ==> LastValue(r, key) == Some("latest")
    decreases |r|
  {
    if |r| > 0 && r[|r| - 1].0 != key {
      LastValueLatest(r[..|r| - 1], key);
    }
  }

  // ---------------------------------------------------------------------------
  // go.mod

  /** The end of the run of non-white characters that starts at `i`. */
  function SkipNonWhite(s: string, i: nat): (r: nat)
    requires i <= |s|
    ensures i <= r <= |s| && (r == |s| || IsWhite(s[r]))
    ensures forall j :: i <= j < r ==> !IsWhite(s[j])
    decreases |s| - i
  {
    if i < |s| && !IsWhite(s[i]) then SkipNonWhite(s, i + 1) else i
  }

  predicate NoWhite(s: string) {
    forall j :: 0 <= j < |s| ==> !IsWhite(s[j])
  }

  /** Pairs of non-empty words without white space in them. */
  predicate AreWords(r: Record) {
    forall i :: 0 <= i < |r| ==> r[i].0 != [] && r[i].1 != [] && NoWhite(r[i].0) && NoWhite(r[i].1)
  }

  lemma WordsCons(m: (string, string), rest: Record)
    requires m.0 != [] && m.1 != [] && NoWhite(m.0) && NoWhite(m.1) && AreWords(rest)
    ensures AreWords([m] + rest)
  {
  }

  /** The matches of `/require\s+([^\s]+)\s+([^\s]+)/g` in `s` from `from` on, in the order
      `matchAll` yields them, as (module, version) pairs. An occurrence of "require" that is
      not followed by the two words is passed over and the search resumes one character on. */
  function GoRequires(s: string, from: nat): (r: Record)
    ensures AreWords(r)
    decreases |s| - from
  {
    match IndexOfFrom(s, "require", from)
    case None => []
    case Some(j) =>
      var a := SkipWhite(s, j + 7);
      var b := SkipNonWhite(s, a);
      var c := SkipWhite(s, b);
      var d := SkipNonWhite(s, c);
      if a == j + 7 || b == a || c == b || d == c then GoRequires(s, j + 1)
      else
        var rest := GoRequires(s, d);
        WordsCons((s[a..b], s[c..d]), rest);
        [(s[a..b], s[c..d])] + rest
  }

  lemma {:induction false} SkipWhiteTo(s: string, i: nat, e: nat)
    requires i <= e <= |s| && (e == |s| || !IsWhite(s[e]))
    requires forall j :: i <= j < e ==> IsWhite(s[j])
    ensures SkipWhite(s, i) == e
    decreases e - i
  {
    if i < e {
      SkipWhiteTo(s, i + 1, e);
    }
  }

  lemma {:induction false} SkipNonWhiteTo(s: string, i: nat, e: nat)
    requires i <= e <= |s| && (e == |s| || IsWhite(s[e]))
    requires forall j :: i <= j < e ==> !IsWhite(s[j])
    ensures SkipNonWhite(s, i) == e
    decreases e - i
  {
    if i < e {
      SkipNonWhiteTo(s, i + 1, e);
    }
  }

  /** Text that is "require", white space, a word, one white character and a word is one match. */
  lemma MatchAtStart(s: string, b: nat)
    requires 8 < b && b + 1 < |s|
    requires s[..7] == "require" && IsWhite(s[7]) && IsWhite(s[b])
    requires forall j :: 8 <= j < b ==> !IsWhite(s[j])
    requires forall j :: b + 1 <= j < |s| ==> !IsWhite(s[j])
    ensures GoRequires(s, 0) == [(s[8..b], s[b + 1..])]
  {
    assert OccursAt(s, "require", 0);
    IndexOfFromAt(s, "require", 0, 0);
    SkipWhiteTo(s, 7, 8);
    SkipNonWhiteTo(s, 8, b);
    SkipWhiteTo(s, b, b + 1);
    SkipNonWhiteTo(s, b + 1, |s|);
    assert IndexOfFrom(s, "require", |s|) == None;
    assert GoRequires(s, |s|) == [];
    assert GoRequires(s, 0) == [(s[8..b], s[b + 1..|s|])] + GoRequires(s, |s|);
    assert s[b + 1..|s|] == s[b + 1..];
  }

  /** A one-line `require module version` yields exactly that pair. */
  lemma SingleRequire(name: string, version: string)
    requires name != [] && version != [] && NoWhite(name) && NoWhite(version)
    ensures GoRequires("require " + name + " " + version, 0) == [(name, version)]
  {
    var s := "require " + name + " " + version;
    var b := 8 + |name|;
    assert s[..7] == "require" && s[7] == ' ' && s[b] == ' ';
    assert s[8..b] == name && s[b + 1..] == version;
    MatchAtStart(s, b);
  }

  // ---------------------------------------------------------------------------
  // parseDependencies

  /** What `JSON.parse` makes of `package.json`; an absent list is empty. */
  datatype PackageJson = PackageJson(dependencies: Record, devDependencies: Record)

  /** The record `parseDependencies` returns, given the three files (`None`: the file is
      missing or, for `package.json`, does not parse to an object). */
  function DependencyRecord(packageJson: Option<PackageJson>, requirements: Option<string>, goMod: Option<string>): Record {
    var fromNode := if packageJson.Some? then AssignAll(AssignAll([], packageJson.value.dependencies), packageJson.value.devDependencies) else [];
    var fromPython := if requirements.Some? then AssignAll(fromNode, RequirementEntries(Split(requirements.value, '\n'))) else fromNode;
    if goMod.Some? then AssignAll(fromPython, GoRequires(goMod.value, 0)) else fromPython
  }

  /** The value of a dependency is decided by the last source that names it: `go.mod` over
      `requirements.txt` over `devDependencies` over `dependencies`. */
  lemma DependencyOverride(packageJson: Option<PackageJson>, requirements: Option<string>, goMod: Option<string>, key: string)
    ensures Lookup(DependencyRecord(packageJson, requirements, goMod), key) ==
      Either(if goMod.Some? then LastValue(GoRequires(goMod.value, 0), key) else None,
      Either(if requirements.Some? then LastValue(RequirementEntries(Split(requirements.value, '\n')), key) else None,
      Either(if packageJson.Some? then LastValue(packageJson.value.devDependencies, key) else None,
             if packageJson.Some? then LastValue(packageJson.value.dependencies, key) else None)))
  {
    var fromNode := if packageJson.Some? then AssignAll(AssignAll([], packageJson.value.dependencies), packageJson.value.devDependencies) else [];
    var fromPython := if requirements.Some? then AssignAll(fromNode, RequirementEntries(Split(requirements.value, '\n'))) else fromNode;
    if packageJson.Some? {
      AssignAllLookup([], packageJson.value.dependencies, key);
      AssignAllLookup(AssignAll([], packageJson.value.dependencies), packageJson.value.devDependencies, key);
    }
    if requirements.Some? {
      AssignAllLookup(fromNode, RequirementEntries(Split(requirements.value, '\n')), key);
    }
    if goMod.Some? {
      AssignAllLookup(fromPython, GoRequires(goMod.value, 0), key);
    }
  }

  /** Every key appears once in the record. */
  lemma DependencyKeysDistinct(packageJson: Option<PackageJson>, requirements: Option<string>, goMod: Option<string>)
    ensures DistinctKeys(DependencyRecord(packageJson, requirements, goMod))
  {
    var fromNode := if packageJson.Some? then AssignAll(AssignAll([], packageJson.value.dependencies), packageJson.value.devDependencies) else [];
    var fromPython := if requirements.Some? then AssignAll(fromNode, RequirementEntries(Split(requirements.value, '\n'))) else fromNode;
    if packageJson.Some? {
      AssignAllDistinct([], packageJson.value.dependencies);
      AssignAllDistinct(AssignAll([], packageJson.value.dependencies), packageJson.value.devDependencies);
    }
    if requirements.Some? {
      AssignAllDistinct(fromNode, RequirementEntries(Split(requirements.value, '\n')));
    }
    if goMod.Some? {
      AssignAllDistinct(fromPython, GoRequires(goMod.value, 0));
    }
  }

  lemma RequirementEntriesSnoc(lines: seq<string>, i: nat)
    requires i < |lines|
    ensures RequirementEntries(lines[..i + 1]) ==
      RequirementEntries(lines[..i]) + (match RequirementName(lines[i]) case None => [] case Some(name) => [(name, "latest")])
  {
    assert lines[..i + 1][..i] == lines[..i];
  }

  /** One more line assigns its name, if it names one, at 'latest'. */
  lemma RequirementStep(dependencies: Record, lines: seq<string>, i: nat)
    requires i < |lines|
    ensures var before := AssignAll(dependencies, RequirementEntries(lines[..i]));
      AssignAll(dependencies, RequirementEntries(lines[..i + 1])) ==
        match RequirementName(lines[i])
        case None => before
        case Some(name) => Assign(before, name, "latest")
  {
    var done := RequirementEntries(lines[..i]);
    assert lines[..i + 1][..i] == lines[..i];
    match RequirementName(lines[i])
    case None =>
    case Some(name) =>
      AssignAllAppend(dependencies, done, (name, "latest"));
  }

  /** The `forEach` over the lines of `requirements.txt`. */
  method AssignRequirements(dependencies: Record, lines: seq<string>) returns (r: Record)
    ensures r == AssignAll(dependencies, RequirementEntries(lines))
  {
    r := dependencies;
    var i := 0;
    while i < |lines|
      invariant 0 <= i <= |lines|
      invariant r == AssignAll(dependencies, RequirementEntries(lines[..i]))
    {
      RequirementStep(dependencies, lines, i);
      var name := RequirementName(lines[i]);
      if name.Some? {
        r := Assign(r, name.value, "latest");
      }
      i := i + 1;
    }
    assert lines[..i] == lines;
  }

  /** The loop over the matches of the `go.mod` pattern. */
  method AssignMatches(dependencies: Record, matches: Record) returns (r: Record)
    ensures r == AssignAll(dependencies, matches)
  {
    r := dependencies;
    var i := 0;
    while i < |matches|
      invariant 0 <= i <= |matches|
      invariant r == AssignAll(dependencies, matches[..i])
    {
      AssignAllSnoc(dependencies, matches, i);
      r := Assign(r, matches[i].0, matches[i].1);
      i := i + 1;
    }
    assert matches[..i] == matches;
  }

  /** `parseDependencies`: the record filled by `Object.assign`, then from `requirements.txt`,
      then from `go.mod`. */
  method ParseDependencies(packageJson: Option<PackageJson>, requirements: Option<string>, goMod: Option<string>)
    returns (dependencies: Record)
    ensures dependencies == DependencyRecord(packageJson, requirements, goMod)
  {
    dependencies := [];
    if packageJson.Some? {
      dependencies := AssignAll(dependencies, packageJson.value.dependencies);
      dependencies := AssignAll(dependencies, packageJson.value.devDependencies);
    }
    if requirements.Some? {
      dependencies := AssignRequirements(dependencies, Split(requirements.value, '\n'));
    }
    if goMod.Some? {
      dependencies := AssignMatches(dependencies, GoRequires(goMod.value, 0));
    }
  }

  // ---------------------------------------------------------------------------
  // detectFrameworks

  /** The entries of the framework table, in its order. */
  datatype Framework =
    | React | Vue | Angular | Next | Nuxt | Express | NestJS | FastAPI | Django | Flask | SpringBoot | Rails

  /** The package whose presence reveals the framework. */
  function PackageName(f: Framework): string {
    match f
    case React => "react"
    case Vue => "vue"
    case Angular => "angular"
    case Next => "next"
    case Nuxt => "nuxt"
    case Express => "express"
    case NestJS => "nestjs"
    case FastAPI => "fastapi"
    case Django => "django"
    case Flask => "flask"
    case SpringBoot => "spring-boot"
    case Rails => "rails"
  }

  /** The name reported for the framework. */
  function DisplayName(f: Framework): string {
    match f
    case React => "React"
    case Vue => "Vue.js"
    case Angular => "Angular"
    case Next => "Next.js"
    case Nuxt => "Nuxt.js"
    case Express => "Express"
    case NestJS => "NestJS"
    case FastAPI => "FastAPI"
    case Django => "Django"
    case Flask => "Flask"
    case SpringBoot => "Spring Boot"
    case Rails => "Ruby on Rails"
  }

  /** The position of the framework in the table. */
  function TablePosition(f: Framework): nat {
    match f
    case React => 0
    case Vue => 1
    case Angular => 2
    case Next => 3
    case Nuxt => 4
    case Express => 5
    case NestJS => 6
    case FastAPI => 7
    case Django => 8
    case Flask => 9
    case SpringBoot => 10
    case Rails => 11
  }

  const FrameworkTable: seq<Framework> :=
    [React, Vue, Angular, Next, Nuxt, Express, NestJS, FastAPI, Django, Flask, SpringBoot, Rails]

  lemma TableInOrder()
    ensures |FrameworkTable| == 12
    ensures forall i :: 0 <= i < |FrameworkTable| ==> TablePosition(FrameworkTable[i]) == i
  {
  }

  lemma InTable(f: Framework)
    ensures f in FrameworkTable
  {
  }

  /** `dependencies[key]` is truthy: present and not the empty string. */
  predicate Truthy(d: Record, key: string) {
    var v := Lookup(d, key);
    v.Some? && v.value != ""
  }

  /** The test of the loop: the package itself or its `@name/core` package is declared. */
  predicate Uses(d: Record, f: Framework) {
    Truthy(d, PackageName(f)) || Truthy(d, "@" + PackageName(f) + "/core")
  }

  /** The frameworks of `table` that `d` uses, in table order. */
  function UsedFrameworks(d: Record, table: seq<Framework>): (r: seq<Framework>)
    ensures forall f :: f in r <==> f in table && Uses(d, f)
  {
    if |table| == 0 then []
    else
      var init := UsedFrameworks(d, table[..|table| - 1]);
      assert table == table[..|table| - 1] + [table[|table| - 1]];
      if Uses(d, table[|table| - 1]) then init + [table[|table| - 1]] else init
  }

  /** What `detectFrameworks` returns. */
  function DetectedFrameworks(d: Record): seq<Framework> {
    UsedFrameworks(d, FrameworkTable)
  }

  predicate InTableOrder(fs: seq<Framework>) {
    forall i, j :: 0 <= i < j < |fs| ==> TablePosition(fs[i]) < TablePosition(fs[j])
  }

  lemma {:induction false} UsedKeepsOrder(d: Record, table: seq<Framework>)
    requires InTableOrder(table)
    ensures InTableOrder(UsedFrameworks(d, table))
    decreases |table|
  {
    if |table| > 0 {
      var init := table[..|table| - 1];
      var last := table[|table| - 1];
      UsedKeepsOrder(d, init);
      var r := UsedFrameworks(d, init);
      assert forall i :: 0 <= i < |r| ==> TablePosition(r[i]) < TablePosition(last) by {
        forall i | 0 <= i < |r| ensures TablePosition(r[i]) < TablePosition(last) {
          assert r[i] in init;
        }
      }
    }
  }

  /** A framework is reported exactly when its package or its core package is declared with
      a non-empty version. */
  lemma FrameworksDetected(d: Record, f: Framework)
    ensures f in DetectedFrameworks(d) <==> Uses(d, f)
  {
    InTable(f);
  }

  /** The frameworks come in table order, so none is reported twice. */
  lemma FrameworksInTableOrder(d: Record)
    ensures InTableOrder(DetectedFrameworks(d))
    ensures forall i, j :: 0 <= i < j < |DetectedFrameworks(d)| ==> DetectedFrameworks(d)[i] != DetectedFrameworks(d)[j]
  {
    TableInOrder();
    UsedKeepsOrder(d, FrameworkTable);
  }

  /** `detectFrameworks`: the loop over the table, pushing each framework in use. */
  method DetectFrameworks(d: Record) returns (frameworks: seq<Framework>)
    ensures frameworks == DetectedFrameworks(d)
  {
    frameworks := [];
    var i := 0;
    while i < |FrameworkTable|
      invariant 0 <= i <= |FrameworkTable|
      invariant frameworks == UsedFrameworks(d, FrameworkTable[..i])
    {
      var f := FrameworkTable[i];
      assert FrameworkTable[..i + 1][..i] == FrameworkTable[..i];
      if Uses(d, f) {
        frameworks := frameworks + [f];
      }
      i := i + 1;
    }
    assert FrameworkTable[..i] == FrameworkTable;
  }

  // ---------------------------------------------------------------------------
  // getProjectStructure

  /** What `readdir` reports: a directory with its entries (`readable` false when reading it
      fails), or anything else, which is listed as a file. */
  datatype Entry = File(name: string) | Dir(name: string, readable: bool, entries: seq<Entry>)

  const ExcludedDirs: seq<string> := ["node_modules", ".git", "dist", "build", "__pycache__", "venv", ".next"]

  /** The walk goes into a directory unless it is excluded by name or hidden. */
  predicate Descends(name: string) {
    name !in ExcludedDirs && !StartsWith(name, ".")
  }

  /** A path (as its segments) below `at` whose directories are all ones the walk goes into. */
  predicate Below(p: seq<string>, at: seq<string>) {
    |p| > |at| && p[..|at|] == at && forall k :: |at| <= k < |p| - 1 ==> Descends(p[k])
  }

  lemma BelowChild(p: seq<string>, at: seq<string>, name: string)
    requires Descends(name) && Below(p, at + [name])
    ensures Below(p, at)
  {
    assert p[..|at|] == p[..|at| + 1][..|at|];
  }

  /** The files `scan` lists under directory `d`, reached by the path `at`. */
  function ListDir(d: Entry, at: seq<string>): (r: seq<seq<string>>)
    requires d.Dir?
    ensures forall p :: p in r ==> Below(p, at)
    decreases d, |d.entries| + 1
  {
    if d.readable then ListUpTo(d, at, |d.entries|) else []
  }

  /** The files listed for the first `n` entries of directory `d`. */
  function ListUpTo(d: Entry, at: seq<string>, n: nat): (r: seq<seq<string>>)
    requires d.Dir? && n <= |d.entries|
    ensures forall p :: p in r ==> Below(p, at)
    decreases d, n
  {
    if n == 0 then []
    else ListUpTo(d, at, n - 1) + ListEntry(d.entries[n - 1], at)
  }

  /** The files listed for one entry: the file itself, or what its directory holds. */
  function ListEntry(e: Entry, at: seq<string>): (r: seq<seq<string>>)
    ensures forall p :: p in r ==> Below(p, at)
    decreases e, if e.Dir? then |e.entries| + 2 else 0
  {
    match e
    case File(name) => [at + [name]]
    case Dir(name, _, _) =>
      if Descends(name) then
        var r := ListDir(e, at + [name]);
        forall p | p in r ensures Below(p, at) {
          BelowChild(p, at, name);
        }
        r
      else []
  }

  /** The files of the whole walk, as paths of segments. */
  function ProjectListing(root: Entry): (r: seq<seq<string>>)
    ensures forall p :: p in r ==> p != [] && forall k :: 0 <= k < |p| - 1 ==> Descends(p[k])
  {
    if root.Dir? then ListDir(root, []) else []
  }

  /** `path.join` of the segments, which for names `readdir` returns puts '/' between them. */
  function Texts(paths: seq<seq<string>>): (r: seq<string>)
    ensures |r| == |paths|
  {
    seq(|paths|, i requires 0 <= i < |paths| => Join(paths[i], "/"))
  }

  lemma TextsConcat(a: seq<seq<string>>, b: seq<seq<string>>)
    ensures Texts(a + b) == Texts(a) + Texts(b)
  {
  }

  /** What `getProjectStructure` returns. */
  function ProjectStructure(root: Entry): seq<string> {
    Texts(ProjectListing(root))
  }

  /** Every entry listed before the `n`th keeps its files in the listing. */
  lemma {:induction false} ListUpToIncludes(d: Entry, at: seq<string>, n: nat, i: nat)
    requires d.Dir? && i < n <= |d.entries|
    ensures forall p :: p in ListEntry(d.entries[i], at) ==> p in ListUpTo(d, at, n)
    decreases n
  {
    if i < n - 1 {
      ListUpToIncludes(d, at, n - 1, i);
    }
  }

  /** A file in a readable directory the walk reaches is listed. */
  lemma FileListed(d: Entry, at: seq<string>, i: nat)
    requires d.Dir? && d.readable && i < |d.entries| && d.entries[i].File?
    ensures at + [d.entries[i].name] in ListDir(d, at)
  {
    ListUpToIncludes(d, at, |d.entries|, i);
  }

  /** A subdirectory that is neither excluded nor hidden has all its files listed. */
  lemma SubdirectoryListed(d: Entry, at: seq<string>, i: nat)
    requires d.Dir? && d.readable && i < |d.entries| && d.entries[i].Dir? && Descends(d.entries[i].name)
    ensures forall p :: p in ListDir(d.entries[i], at + [d.entries[i].name]) ==> p in ListDir(d, at)
  {
    ListUpToIncludes(d, at, |d.entries|, i);
  }

  /** `scan(dir, relative)`: the entries in order, a file pushed, a directory walked unless
      excluded or hidden; a directory that cannot be read adds nothing. */
  method Scan(d: Entry, at: seq<string>, files: seq<string>) returns (out: seq<string>)
    requires d.Dir?
    ensures out == files + Texts(ListDir(d, at))
    decreases d
  {
    out := files;
    if d.readable {
      var i := 0;
      while i < |d.entries|
        invariant 0 <= i <= |d.entries|
        invariant out == files + Texts(ListUpTo(d, at, i))
      {
        var entry := d.entries[i];
        TextsConcat(ListUpTo(d, at, i), ListEntry(entry, at));
        match entry {
          case File(name) =>
            out := out + [Join(at + [name], "/")];
          case Dir(name, _, _) =>
            if Descends(name) {
              out := Scan(entry, at + [name], out);
            }
        }
        i := i + 1;
      }
    }
  }

  /** `getProjectStructure`: the walk from the repository's root. */
  method GetProjectStructure(root: Entry) returns (files: seq<string>)
    ensures files == ProjectStructure(root)
  {
    files := [];
    if root.Dir? {
      files := Scan(root, [], files);
    }
  }

  // ---------------------------------------------------------------------------
  // File classes

  /** `files.filter(keep)`. */
  function Filter(files: seq<string>, keep: string -> bool): (r: seq<string>)
    ensures forall f :: f in r <==> f in files && keep(f)
    ensures forall f :: multiset(r)[f] == if keep(f) then multiset(files)[f] else 0
  {
    if |files| == 0 then []
    else
      var init := Filter(files[..|files| - 1], keep);
      var last := files[|files| - 1];
      assert files == files[..|files| - 1] + [last];
      if keep(last) then init + [last] else init
  }

  /** The extensions that have a test-file form. */
  const ScriptExtensions: seq<string> := [".js", ".ts", ".jsx", ".tsx", ".py"]
  const SourceExtensions: seq<string> := ScriptExtensions + [".java", ".go", ".rb"]
  const ConfigExtensions: seq<string> := [".json", ".yaml", ".yml", ".toml", ".ini", ".conf", ".config"]
  const ConfigNamePrefixes: seq<string> := [".env", ".gitignore", "Dockerfile", "docker-compose"]
  const DocumentationExtensions: seq<string> := [".md", ".txt", ".rst"]

  /** `/\.(js|ts|jsx|tsx|py|java|go|rb)$/`. */
  predicate IsSourceFile(f: string) {
    exists e :: e in SourceExtensions && EndsWith(f, e)
  }

  /** `/\.(test|spec)\.(js|ts|jsx|tsx|py)$/`. */
  predicate IsTestFile(f: string) {
    exists e :: e in ScriptExtensions && (EndsWith(f, ".test" + e) || EndsWith(f, ".spec" + e))
  }

  /** `/\.(json|yaml|yml|toml|ini|conf|config)$/`, or a base name that opens with
      `.env`, `.gitignore`, `Dockerfile` or `docker-compose`. */
  predicate IsConfigFile(f: string) {
    (exists e :: e in ConfigExtensions && EndsWith(f, e))
    || (exists n :: n in ConfigNamePrefixes && StartsWith(BaseName(f), n))
  }

  /** `/\.(md|txt|rst)$/`. */
  predicate IsDocumentationFile(f: string) {
    exists e :: e in DocumentationExtensions && EndsWith(f, e)
  }

  lemma EndsWithTail(f: string, infix: string, e: string)
    requires EndsWith(f, infix + e)
    ensures EndsWith(f, e)
  {
    assert f[|f| - |e|..] == f[|f| - |infix + e|..][|infix|..];
  }

  lemma EndsWithLast(f: string, e: string)
    requires EndsWith(f, e) && e != []
    ensures f[|f| - 1] == e[|e| - 1]
  {
    assert f[|f| - |e|..][|e| - 1] == f[|f| - 1];
  }

  /** The extension tests never agree: a file with a documentation extension is not a
      source file, and one with a configuration extension is neither; only the
      configuration names (`.env`, `Dockerfile`, ...) can make a file fall in two of
      the counts. */
  lemma ExtensionCategoriesDisjoint(f: string)
    ensures IsDocumentationFile(f) ==> !IsSourceFile(f)
    ensures (exists e :: e in ConfigExtensions && EndsWith(f, e)) ==>
      !IsSourceFile(f) && !IsDocumentationFile(f)
  {
    forall e | e in SourceExtensions && EndsWith(f, e)
      ensures f[|f| - 1] in "ssxxyaob"
    {
      EndsWithLast(f, e);
    }
    forall e | e in DocumentationExtensions && EndsWith(f, e)
      ensures f[|f| - 1] in "dtt"
    {
      EndsWithLast(f, e);
    }
    forall e | e in ConfigExtensions && EndsWith(f, e)
      ensures f[|f| - 1] in "nlllifg"
    {
      EndsWithLast(f, e);
    }
  }

  /** Every test file is also a source file, so it can be among the ones analysed. */
  lemma TestFilesAreSources(f: string)
    requires IsTestFile(f)
    ensures IsSourceFile(f)
  {
    var e :| e in ScriptExtensions && (EndsWith(f, ".test" + e) || EndsWith(f, ".spec" + e));
    if EndsWith(f, ".test" + e) {
      EndsWithTail(f, ".test", e);
    } else {
      EndsWithTail(f, ".spec", e);
    }
    assert e in SourceExtensions;
  }

  /** The source files the loop analyses: the first fifty of them. */
  function AnalysedFiles(structure: seq<string>): (r: seq<string>)
    ensures |r| <= 50
    ensures forall f :: f in r ==> f in structure && IsSourceFile(f)
  {
    var sources := Filter(structure, IsSourceFile);
    if |sources| <= 50 then sources else sources[..50]
  }

  // ---------------------------------------------------------------------------
  // analyzeFile and the analysis loop

  datatype FunctionDecl = FunctionDecl(name: string, parameters: seq<string>)
  datatype ClassDecl = ClassDecl(name: string, methods: seq<string>)
  datatype RouteDecl = RouteDecl(verb: string, path: string)

  /** What the scrapers find in one file. */
  datatype FileAnalysis = FileAnalysis(imports: seq<string>, functions: seq<FunctionDecl>, classes: seq<ClassDecl>, apis: seq<RouteDecl>)

  datatype ImportEntry = ImportEntry(file: string, imports: seq<string>)
  datatype FunctionEntry = FunctionEntry(file: string, name: string, parameters: seq<string>)
  datatype ClassEntry = ClassEntry(file: string, name: string, methods: seq<string>)
  datatype ApiEntry = ApiEntry(file: string, verb: string, path: string)

  const NoFindings := FileAnalysis([], [], [], [])

  /** `analyzeFile`: the file's text (`None` when reading it throws) goes to the JavaScript
      scrapers for `.js`, `.ts`, `.jsx` and `.tsx`, to the Python scrapers (which look for no
      routes) for `.py`, and to none otherwise. */
  function AnalyzeFile(file: string, read: string -> Option<string>,
                       scrapeScript: string -> FileAnalysis, scrapePython: string -> FileAnalysis): (r: Option<FileAnalysis>)
    ensures r.Some? <==> read(file).Some?
    ensures r.Some? && ExtName(file) == ".py" ==> r.value.apis == []
    ensures r.Some? && ExtName(file) !in [".js", ".ts", ".jsx", ".tsx", ".py"] ==> r.value == NoFindings
  {
    match read(file)
    case None => None
    case Some(content) =>
      var ext := ExtName(file);
      if ext in [".js", ".ts", ".jsx", ".tsx"] then Some(scrapeScript(content))
      else if ext == ".py" then
        var found := scrapePython(content);
        Some(FileAnalysis(found.imports, found.functions, found.classes, []))
      else Some(NoFindings)
  }

  /** The four lists of the context that the analysis loop fills. */
  datatype Findings = Findings(imports: seq<ImportEntry>, functions: seq<FunctionEntry>, classes: seq<ClassEntry>, apis: seq<ApiEntry>)

  /** What one file adds: its imports as one entry when there are any, and each declaration
      tagged with the file; a file that cannot be read adds nothing. */
  function AddFindings(acc: Findings, file: string, analysis: Option<FileAnalysis>): Findings {
    match analysis
    case None => acc
    case Some(a) =>
      Findings(
        acc.imports + (if |a.imports| > 0 then [ImportEntry(file, a.imports)] else []),
        acc.functions + seq(|a.functions|, i requires 0 <= i < |a.functions| => FunctionEntry(file, a.functions[i].name, a.functions[i].parameters)),
        acc.classes + seq(|a.classes|, i requires 0 <= i < |a.classes| => ClassEntry(file, a.classes[i].name, a.classes[i].methods)),
        acc.apis + seq(|a.apis|, i requires 0 <= i < |a.apis| => ApiEntry(file, a.apis[i].verb, a.apis[i].path)))
  }

  /** Every entry was found in one of `files`, and every import entry lists something. */
  predicate FoundIn(r: Findings, files: seq<string>) {
    (forall e :: e in r.imports ==> e.file in files && e.imports != [])
    && (forall e :: e in r.functions ==> e.file in files)
    && (forall e :: e in r.classes ==> e.file in files)
    && (forall e :: e in r.apis ==> e.file in files)
  }

  /** The findings of the loop over `files`, in order. */
  function CollectFindings(files: seq<string>, read: string -> Option<string>,
                           scrapeScript: string -> FileAnalysis, scrapePython: string -> FileAnalysis): (r: Findings)
    ensures FoundIn(r, files)
    ensures |r.imports| <= |files|
  {
    if |files| == 0 then Findings([], [], [], [])
    else
      var init := files[..|files| - 1];
      var file := files[|files| - 1];
      var before := CollectFindings(init, read, scrapeScript, scrapePython);
      assert forall f :: f in init ==> f in files;
      AddFindings(before, file, AnalyzeFile(file, read, scrapeScript, scrapePython))
  }

  /** The analysis loop: at most fifty files, each analysed at most once, and everything it
      records comes from a source file of the project. */
  lemma AnalysisBounded(structure: seq<string>, read: string -> Option<string>,
                        scrapeScript: string -> FileAnalysis, scrapePython: string -> FileAnalysis)
    ensures var r := CollectFindings(AnalysedFiles(structure), read, scrapeScript, scrapePython);
      |r.imports| <= 50
      && (forall e :: e in r.imports ==> e.file in structure && IsSourceFile(e.file))
      && (forall e :: e in r.functions ==> e.file in structure && IsSourceFile(e.file))
      && (forall e :: e in r.classes ==> e.file in structure && IsSourceFile(e.file))
      && (forall e :: e in r.apis ==> e.file in structure && IsSourceFile(e.file))
  {
  }

  lemma CollectSnoc(files: seq<string>, i: nat, read: string -> Option<string>,
                    scrapeScript: string -> FileAnalysis, scrapePython: string -> FileAnalysis)
    requires i < |files|
    ensures CollectFindings(files[..i + 1], read, scrapeScript, scrapePython)
         == AddFindings(CollectFindings(files[..i], read, scrapeScript, scrapePython), files[i],
                        AnalyzeFile(files[i], read, scrapeScript, scrapePython))
  {
    assert files[..i + 1][..i] == files[..i];
  }

  /** The loop `for (const file of sourceFiles.slice(0, 50))`, a failed analysis logged and
      skipped. */
  method AnalyzeSources(files: seq<string>, read: string -> Option<string>,
                        scrapeScript: string -> FileAnalysis, scrapePython: string -> FileAnalysis)
    returns (found: Findings)
    ensures found == CollectFindings(files, read, scrapeScript, scrapePython)
  {
    found := Findings([], [], [], []);
    var i := 0;
    while i < |files|
      invariant 0 <= i <= |files|
      invariant found == CollectFindings(files[..i], read, scrapeScript, scrapePython)
    {
      CollectSnoc(files, i, read, scrapeScript, scrapePython);
      var analysis := AnalyzeFile(files[i], read, scrapeScript, scrapePython);
      found := AddFindings(found, files[i], analysis);
      i := i + 1;
    }
    assert files[..i] == files;
  }

  // ---------------------------------------------------------------------------
  // gatherProjectContext

  datatype CodeContext = CodeContext(
    projectStructure: seq<string>,
    dependencies: Record,
    frameworks: seq<Framework>,
    imports: seq<ImportEntry>,
    functions: seq<FunctionEntry>,
    classes: seq<ClassEntry>,
    apis: seq<ApiEntry>,
    tests: seq<string>,
    configs: seq<string>,
    documentation: seq<string>)

  /** `gatherProjectContext`: every step catches its own failures, so a context is always
      returned. */
  method GatherProjectContext(root: Entry, packageJson: Option<PackageJson>, requirements: Option<string>, goMod: Option<string>,
                              read: string -> Option<string>,
                              scrapeScript: string -> FileAnalysis, scrapePython: string -> FileAnalysis)
    returns (context: CodeContext)
    ensures context.projectStructure == ProjectStructure(root)
    ensures context.dependencies == DependencyRecord(packageJson, requirements, goMod)
    ensures context.frameworks == DetectedFrameworks(context.dependencies)
    ensures var found := CollectFindings(AnalysedFiles(context.projectStructure), read, scrapeScript, scrapePython);
      context.imports == found.imports && context.functions == found.functions
      && context.classes == found.classes && context.apis == found.apis
    ensures context.tests == Filter(context.projectStructure, IsTestFile)
    ensures context.configs == Filter(context.projectStructure, IsConfigFile)
    ensures context.documentation == Filter(context.projectStructure, IsDocumentationFile)
  {
    var structure := GetProjectStructure(root);
    var dependencies := ParseDependencies(packageJson, requirements, goMod);
    var frameworks := DetectFrameworks(dependencies);
    var found := AnalyzeSources(AnalysedFiles(structure), read, scrapeScript, scrapePython);
    context := CodeContext(structure, dependencies, frameworks, found.imports, found.functions, found.classes, found.apis,
      Filter(structure, IsTestFile), Filter(structure, IsConfigFile), Filter(structure, IsDocumentationFile));
  }

  // ---------------------------------------------------------------------------
  // generateContextSummary

  /** The lines the summary pushes, each rendered by `Render`. */
  datatype SummaryLine =
    | Title
    | FrameworksLine(names: seq<string>)
    | StructureHeading
    | TotalFiles(count: nat)
    | TestFiles(count: nat)
    | ConfigFiles(count: nat)
    | DocumentationFiles(count: nat)
    | DependenciesHeading
    | DependencyItem(name: string, version: string)
    | FunctionsHeading(total: nat)
    | FunctionItem(name: string, file: string)
    | ClassesHeading(total: nat)
    | ClassItem(name: string, file: string)
    | ApisHeading(total: nat)
    | ApiItem(verb: string, path: string, file: string)
    | Blank

  function Render(line: SummaryLine): string {
    match line
    case Title => "# Project Context\n"
    case FrameworksLine(names) => "## Frameworks: " + Join(names, ", ") + "\n"
    case StructureHeading => "## Project Structure"
    case TotalFiles(n) => "- Total files: " + NatToString(n)
    case TestFiles(n) => "- Test files: " + NatToString(n)
    case ConfigFiles(n) => "- Config files: " + NatToString(n)
    case DocumentationFiles(n) => "- Documentation: " + NatToString(n) + "\n"
    case DependenciesHeading => "## Key Dependencies"
    case DependencyItem(name, version) => "- " + name + ": " + version
    case FunctionsHeading(n) => "## Functions (" + NatToString(n) + " total)"
    case FunctionItem(name, file) => "- " + name + " in " + file
    case ClassesHeading(n) => "## Classes (" + NatToString(n) + " total)"
    case ClassItem(name, file) => "- " + name + " in " + file
    case ApisHeading(n) => "## API Routes (" + NatToString(n) + " total)"
    case ApiItem(verb, path, file) => "- " + verb + " " + path + " in " + file
    case Blank => ""
  }

  function RenderAll(lines: seq<SummaryLine>): (r: seq<string>)
    ensures |r| == |lines|
  {
    seq(|lines|, i requires 0 <= i < |lines| => Render(lines[i]))
  }

  function Names(frameworks: seq<Framework>): seq<string> {
    seq(|frameworks|, i requires 0 <= i < |frameworks| => DisplayName(frameworks[i]))
  }

  /** `slice(0, 10)`. */
  function FirstTen<T>(s: seq<T>): (r: seq<T>)
    ensures |r| == if |s| <= 10 then |s| else 10
    ensures r == s[..|r|]
  {
    if |s| <= 10 then s else s[..10]
  }

  function DependencyItems(d: Record): seq<SummaryLine> {
    seq(|d|, i requires 0 <= i < |d| => DependencyItem(d[i].0, d[i].1))
  }

  function FunctionItems(fs: seq<FunctionEntry>): seq<SummaryLine> {
    seq(|fs|, i requires 0 <= i < |fs| => FunctionItem(fs[i].name, fs[i].file))
  }

  function ClassItems(cs: seq<ClassEntry>): seq<SummaryLine> {
    seq(|cs|, i requires 0 <= i < |cs| => ClassItem(cs[i].name, cs[i].file))
  }

  function ApiItems(apis: seq<ApiEntry>): seq<SummaryLine> {
    seq(|apis|, i requires 0 <= i < |apis| => ApiItem(apis[i].verb, apis[i].path, apis[i].file))
  }

  function DependencySection(d: Record): (r: seq<SummaryLine>)
    ensures forall i :: 0 <= i < |r| ==> r[i].DependenciesHeading? || r[i].DependencyItem? || r[i].Blank?
    ensures forall l :: l in r ==> l.DependenciesHeading? || l.DependencyItem? || l.Blank?
  {
    if |d| == 0 then [] else [DependenciesHeading] + DependencyItems(FirstTen(d)) + [Blank]
  }

  function FunctionSection(fs: seq<FunctionEntry>): (r: seq<SummaryLine>)
    ensures forall i :: 0 <= i < |r| ==> r[i].FunctionsHeading? || r[i].FunctionItem? || r[i].Blank?
    ensures forall l :: l in r ==> l.FunctionsHeading? || l.FunctionItem? || l.Blank?
  {
    if |fs| == 0 then [] else [FunctionsHeading(|fs|)] + FunctionItems(FirstTen(fs)) + [Blank]
  }

  function ClassSection(cs: seq<ClassEntry>): (r: seq<SummaryLine>)
    ensures forall i :: 0 <= i < |r| ==> r[i].ClassesHeading? || r[i].ClassItem? || r[i].Blank?
    ensures forall l :: l in r ==> l.ClassesHeading? || l.ClassItem? || l.Blank?
  {
    if |cs| == 0 then [] else [ClassesHeading(|cs|)] + ClassItems(FirstTen(cs)) + [Blank]
  }

  function ApiSection(apis: seq<ApiEntry>): (r: seq<SummaryLine>)
    ensures forall i :: 0 <= i < |r| ==> r[i].ApisHeading? || r[i].ApiItem?
    ensures forall l :: l in r ==> l.ApisHeading? || l.ApiItem?
  {
    if |apis| == 0 then [] else [ApisHeading(|apis|)] + ApiItems(FirstTen(apis))
  }

  /** The heading, the frameworks when there are any, the four totals. */
  function Overview(context: CodeContext): (r: seq<SummaryLine>)
    ensures forall i :: 0 <= i < |r| ==>
      r[i].Title? || r[i].FrameworksLine? || r[i].StructureHeading? || r[i].TotalFiles?
      || r[i].TestFiles? || r[i].ConfigFiles? || r[i].DocumentationFiles?
    ensures forall l :: l in r ==>
      l.Title? || l.FrameworksLine? || l.StructureHeading? || l.TotalFiles?
      || l.TestFiles? || l.ConfigFiles? || l.DocumentationFiles?
  {
    [Title]
    + (if |context.frameworks| > 0 then [FrameworksLine(Names(context.frameworks))] else [])
    + [StructureHeading, TotalFiles(|context.projectStructure|), TestFiles(|context.tests|),
       ConfigFiles(|context.configs|), DocumentationFiles(|context.documentation|)]
  }

  /** The lines of the summary, in the order they are pushed. */
  function SummaryLines(context: CodeContext): seq<SummaryLine> {
    Overview(context)
    + DependencySection(context.dependencies)
    + FunctionSection(context.functions)
    + ClassSection(context.classes)
    + ApiSection(context.apis)
  }

  /** What `generateContextSummary` returns. */
  function ContextSummary(context: CodeContext): string {
    Join(RenderAll(SummaryLines(context)), "\n")
  }

  lemma InOverview(context: CodeContext, x: SummaryLine)
    requires x in Overview(context)
    ensures x in SummaryLines(context)
  {
    InParts(x, Overview(context), DependencySection(context.dependencies), FunctionSection(context.functions),
      ClassSection(context.classes), ApiSection(context.apis));
  }

  lemma OverviewTotals(context: CodeContext)
    ensures Overview(context)[0] == Title
    ensures TotalFiles(|context.projectStructure|) in Overview(context)
    ensures TestFiles(|context.tests|) in Overview(context)
    ensures ConfigFiles(|context.configs|) in Overview(context)
    ensures DocumentationFiles(|context.documentation|) in Overview(context)
  {
    var o := Overview(context);
    var k := |o| - 4;
    assert o[k] == TotalFiles(|context.projectStructure|) && o[k + 1] == TestFiles(|context.tests|);
    assert o[k + 2] == ConfigFiles(|context.configs|) && o[k + 3] == DocumentationFiles(|context.documentation|);
  }

  /** The summary opens with its title and always states the four totals. */
  lemma SummaryTotals(context: CodeContext)
    ensures SummaryLines(context)[0] == Title
    ensures TotalFiles(|context.projectStructure|) in SummaryLines(context)
    ensures TestFiles(|context.tests|) in SummaryLines(context)
    ensures ConfigFiles(|context.configs|) in SummaryLines(context)
    ensures DocumentationFiles(|context.documentation|) in SummaryLines(context)
  {
    OverviewTotals(context);
    InOverview(context, TotalFiles(|context.projectStructure|));
    InOverview(context, TestFiles(|context.tests|));
    InOverview(context, ConfigFiles(|context.configs|));
    InOverview(context, DocumentationFiles(|context.documentation|));
  }

  /** How many of `lines` satisfy `p`. */
  function Count(lines: seq<SummaryLine>, p: SummaryLine -> bool): nat {
    if |lines| == 0 then 0
    else Count(lines[..|lines| - 1], p) + (if p(lines[|lines| - 1]) then 1 else 0)
  }

  lemma {:induction false} CountConcat(a: seq<SummaryLine>, b: seq<SummaryLine>, p: SummaryLine -> bool)
    ensures Count(a + b, p) == Count(a, p) + Count(b, p)
    decreases |b|
  {
    if |b| > 0 {
      assert (a + b)[..|a + b| - 1] == a + b[..|b| - 1];
      CountConcat(a, b[..|b| - 1], p);
    } else {
      assert a + b == a;
    }
  }

  lemma {:induction false} CountAll(lines: seq<SummaryLine>, p: SummaryLine -> bool)
    requires forall i :: 0 <= i < |lines| ==> p(lines[i])
    ensures Count(lines, p) == |lines|
    decreases |lines|
  {
    if |lines| > 0 {
      CountAll(lines[..|lines| - 1], p);
    }
  }

  lemma {:induction false} CountNone(lines: seq<SummaryLine>, p: SummaryLine -> bool)
    requires forall i :: 0 <= i < |lines| ==> !p(lines[i])
    ensures Count(lines, p) == 0
    decreases |lines|
  {
    if |lines| > 0 {
      CountNone(lines[..|lines| - 1], p);
    }
  }

  predicate IsDependencyItem(line: SummaryLine) { line.DependencyItem? }
  predicate IsFunctionItem(line: SummaryLine) { line.FunctionItem? }
  predicate IsClassItem(line: SummaryLine) { line.ClassItem? }
  predicate IsApiItem(line: SummaryLine) { line.ApiItem? }

  /** The lines of a section that satisfy `p`: all of its items, or none of its lines. */
  lemma SectionCount(section: seq<SummaryLine>, items: seq<SummaryLine>, p: SummaryLine -> bool, head: SummaryLine, tail: seq<SummaryLine>)
    requires section == [] || section == [head] + items + tail
    requires !p(head) && forall i :: 0 <= i < |tail| ==> !p(tail[i])
    requires forall i :: 0 <= i < |items| ==> p(items[i])
    ensures Count(section, p) == if section == [] then 0 else |items|
  {
    if section != [] {
      CountConcat([head] + items, tail, p);
      CountConcat([head], items, p);
      CountAll(items, p);
      CountNone(tail, p);
      CountNone([head], p);
    }
  }

  lemma OverviewCounts(context: CodeContext)
    ensures Count(Overview(context), IsDependencyItem) == 0 && Count(Overview(context), IsFunctionItem) == 0
    ensures Count(Overview(context), IsClassItem) == 0 && Count(Overview(context), IsApiItem) == 0
  {
    var o := Overview(context);
    CountNone(o, IsDependencyItem);
    CountNone(o, IsFunctionItem);
    CountNone(o, IsClassItem);
    CountNone(o, IsApiItem);
  }

  lemma DependencySectionCounts(d: Record)
    ensures Count(DependencySection(d), IsDependencyItem) == |FirstTen(d)|
    ensures Count(DependencySection(d), IsFunctionItem) == 0 && Count(DependencySection(d), IsClassItem) == 0
    ensures Count(DependencySection(d), IsApiItem) == 0
  {
    var s := DependencySection(d);
    SectionCount(s, DependencyItems(FirstTen(d)), IsDependencyItem, DependenciesHeading, [Blank]);
    CountNone(s, IsFunctionItem);
    CountNone(s, IsClassItem);
    CountNone(s, IsApiItem);
  }

  lemma FunctionSectionCounts(fs: seq<FunctionEntry>)
    ensures Count(FunctionSection(fs), IsFunctionItem) == |FirstTen(fs)|
    ensures Count(FunctionSection(fs), IsDependencyItem) == 0 && Count(FunctionSection(fs), IsClassItem) == 0
    ensures Count(FunctionSection(fs), IsApiItem) == 0
  {
    var s := FunctionSection(fs);
    SectionCount(s, FunctionItems(FirstTen(fs)), IsFunctionItem, FunctionsHeading(|fs|), [Blank]);
    CountNone(s, IsDependencyItem);
    CountNone(s, IsClassItem);
    CountNone(s, IsApiItem);
  }

  lemma ClassSectionCounts(cs: seq<ClassEntry>)
    ensures Count(ClassSection(cs), IsClassItem) == |FirstTen(cs)|
    ensures Count(ClassSection(cs), IsDependencyItem) == 0 && Count(ClassSection(cs), IsFunctionItem) == 0
    ensures Count(ClassSection(cs), IsApiItem) == 0
  {
    var s := ClassSection(cs);
    SectionCount(s, ClassItems(FirstTen(cs)), IsClassItem, ClassesHeading(|cs|), [Blank]);
    CountNone(s, IsDependencyItem);
    CountNone(s, IsFunctionItem);
    CountNone(s, IsApiItem);
  }

  lemma ApiSectionCounts(apis: seq<ApiEntry>)
    ensures Count(ApiSection(apis), IsApiItem) == |FirstTen(apis)|
    ensures Count(ApiSection(apis), IsDependencyItem) == 0 && Count(ApiSection(apis), IsFunctionItem) == 0
    ensures Count(ApiSection(apis), IsClassItem) == 0
  {
    var s := ApiSection(apis);
    SectionCount(s, ApiItems(FirstTen(apis)), IsApiItem, ApisHeading(|apis|), []);
    CountNone(s, IsDependencyItem);
    CountNone(s, IsFunctionItem);
    CountNone(s, IsClassItem);
  }

  lemma SplitCount(o: seq<SummaryLine>, d: seq<SummaryLine>, f: seq<SummaryLine>, c: seq<SummaryLine>, a: seq<SummaryLine>, p: SummaryLine -> bool)
    ensures Count(o + d + f + c + a, p) == Count(o, p) + Count(d, p) + Count(f, p) + Count(c, p) + Count(a, p)
  {
    CountConcat(o + d + f + c, a, p);
    CountConcat(o + d + f, c, p);
    CountConcat(o + d, f, p);
    CountConcat(o, d, p);
  }

  /** At most ten dependencies, functions, classes and routes are listed, whatever the totals. */
  lemma SummaryListsAtMostTen(context: CodeContext)
    ensures Count(SummaryLines(context), IsDependencyItem) == |FirstTen(context.dependencies)|
    ensures Count(SummaryLines(context), IsFunctionItem) == |FirstTen(context.functions)|
    ensures Count(SummaryLines(context), IsClassItem) == |FirstTen(context.classes)|
    ensures Count(SummaryLines(context), IsApiItem) == |FirstTen(context.apis)|
  {
    var o := Overview(context);
    var d := DependencySection(context.dependencies);
    var f := FunctionSection(context.functions);
    var c := ClassSection(context.classes);
    var a := ApiSection(context.apis);
    OverviewCounts(context);
    DependencySectionCounts(context.dependencies);
    FunctionSectionCounts(context.functions);
    ClassSectionCounts(context.classes);
    ApiSectionCounts(context.apis);
    SplitCount(o, d, f, c, a, IsDependencyItem);
    SplitCount(o, d, f, c, a, IsFunctionItem);
    SplitCount(o, d, f, c, a, IsClassItem);
    SplitCount(o, d, f, c, a, IsApiItem);
  }

  lemma InParts(x: SummaryLine, o: seq<SummaryLine>, d: seq<SummaryLine>, f: seq<SummaryLine>, c: seq<SummaryLine>, a: seq<SummaryLine>)
    ensures x in o + d + f + c + a <==> x in o || x in d || x in f || x in c || x in a
  {
  }

  lemma FrameworksLineShown(context: CodeContext)
    ensures FrameworksLine(Names(context.frameworks)) in SummaryLines(context) <==> |context.frameworks| > 0
  {
    var x := FrameworksLine(Names(context.frameworks));
    if |context.frameworks| > 0 {
      assert Overview(context)[1] == x;
    }
    InParts(x, Overview(context), DependencySection(context.dependencies), FunctionSection(context.functions),
      ClassSection(context.classes), ApiSection(context.apis));
  }

  lemma DependenciesShown(context: CodeContext)
    ensures DependenciesHeading in SummaryLines(context) <==> |context.dependencies| > 0
  {
    if |context.dependencies| > 0 {
      assert DependencySection(context.dependencies)[0] == DependenciesHeading;
    }
    InParts(DependenciesHeading, Overview(context), DependencySection(context.dependencies), FunctionSection(context.functions),
      ClassSection(context.classes), ApiSection(context.apis));
  }

  lemma FunctionsShown(context: CodeContext)
    ensures FunctionsHeading(|context.functions|) in SummaryLines(context) <==> |context.functions| > 0
  {
    var x := FunctionsHeading(|context.functions|);
    if |context.functions| > 0 {
      assert FunctionSection(context.functions)[0] == x;
    }
    InParts(x, Overview(context), DependencySection(context.dependencies), FunctionSection(context.functions),
      ClassSection(context.classes), ApiSection(context.apis));
  }

  lemma ClassesShown(context: CodeContext)
    ensures ClassesHeading(|context.classes|) in SummaryLines(context) <==> |context.classes| > 0
  {
    var x := ClassesHeading(|context.classes|);
    if |context.classes| > 0 {
      assert ClassSection(context.classes)[0] == x;
    }
    InParts(x, Overview(context), DependencySection(context.dependencies), FunctionSection(context.functions),
      ClassSection(context.classes), ApiSection(context.apis));
  }

  lemma ApisShown(context: CodeContext)
    ensures ApisHeading(|context.apis|) in SummaryLines(context) <==> |context.apis| > 0
  {
    var x := ApisHeading(|context.apis|);
    if |context.apis| > 0 {
      assert ApiSection(context.apis)[0] == x;
    }
    InParts(x, Overview(context), DependencySection(context.dependencies), FunctionSection(context.functions),
      ClassSection(context.classes), ApiSection(context.apis));
  }

  /** A section, and the frameworks line, appear exactly when their list is not empty. */
  lemma EmptySectionsOmitted(context: CodeContext)
    ensures FrameworksLine(Names(context.frameworks)) in SummaryLines(context) <==> |context.frameworks| > 0
    ensures DependenciesHeading in SummaryLines(context) <==> |context.dependencies| > 0
    ensures FunctionsHeading(|context.functions|) in SummaryLines(context) <==> |context.functions| > 0
    ensures ClassesHeading(|context.classes|) in SummaryLines(context) <==> |context.classes| > 0
    ensures ApisHeading(|context.apis|) in SummaryLines(context) <==> |context.apis| > 0
  {
    FrameworksLineShown(context);
    DependenciesShown(context);
    FunctionsShown(context);
    ClassesShown(context);
    ApisShown(context);
  }

  lemma DependencyItemsOfSection(d: Record, name: string, version: string)
    ensures DependencyItem(name, version) in DependencySection(d) <==> (name, version) in FirstTen(d)
  {
    var top := FirstTen(d);
    var s := DependencySection(d);
    if (name, version) in top {
      var i :| 0 <= i < |top| && top[i] == (name, version);
      assert s[i + 1] == DependencyItem(name, version);
    }
    if DependencyItem(name, version) in s {
      var i :| 0 <= i < |s| && s[i] == DependencyItem(name, version);
      assert top[i - 1] == (name, version);
    }
  }

  /** The first ten dependencies, and only they, are listed with their versions. */
  lemma FirstTenDependenciesListed(context: CodeContext, name: string, version: string)
    ensures DependencyItem(name, version) in SummaryLines(context) <==> (name, version) in FirstTen(context.dependencies)
  {
    var o := Overview(context);
    var d := DependencySection(context.dependencies);
    var f := FunctionSection(context.functions);
    var c := ClassSection(context.classes);
    var a := ApiSection(context.apis);
    DependencyItemsOfSection(context.dependencies, name, version);
    InParts(DependencyItem(name, version), o, d, f, c, a);
  }

  // The `forEach` loops of the summary, each over a list already cut to ten.

  method PushDependencies(lines: seq<SummaryLine>, top: Record) returns (r: seq<SummaryLine>)
    ensures r == lines + DependencyItems(top)
  {
    r := lines;
    for i := 0 to |top|
      invariant r == lines + DependencyItems(top[..i])
    {
      assert DependencyItems(top[..i + 1]) == DependencyItems(top[..i]) + [DependencyItem(top[i].0, top[i].1)];
      r := r + [DependencyItem(top[i].0, top[i].1)];
    }
    assert top[..|top|] == top;
  }

  method PushFunctions(lines: seq<SummaryLine>, top: seq<FunctionEntry>) returns (r: seq<SummaryLine>)
    ensures r == lines + FunctionItems(top)
  {
    r := lines;
    for i := 0 to |top|
      invariant r == lines + FunctionItems(top[..i])
    {
      assert FunctionItems(top[..i + 1]) == FunctionItems(top[..i]) + [FunctionItem(top[i].name, top[i].file)];
      r := r + [FunctionItem(top[i].name, top[i].file)];
    }
    assert top[..|top|] == top;
  }

  method PushClasses(lines: seq<SummaryLine>, top: seq<ClassEntry>) returns (r: seq<SummaryLine>)
    ensures r == lines + ClassItems(top)
  {
    r := lines;
    for i := 0 to |top|
      invariant r == lines + ClassItems(top[..i])
    {
      assert ClassItems(top[..i + 1]) == ClassItems(top[..i]) + [ClassItem(top[i].name, top[i].file)];
      r := r + [ClassItem(top[i].name, top[i].file)];
    }
    assert top[..|top|] == top;
  }

  method PushApis(lines: seq<SummaryLine>, top: seq<ApiEntry>) returns (r: seq<SummaryLine>)
    ensures r == lines + ApiItems(top)
  {
    r := lines;
    for i := 0 to |top|
      invariant r == lines + ApiItems(top[..i])
    {
      assert ApiItems(top[..i + 1]) == ApiItems(top[..i]) + [ApiItem(top[i].verb, top[i].path, top[i].file)];
      r := r + [ApiItem(top[i].verb, top[i].path, top[i].file)];
    }
    assert top[..|top|] == top;
  }

  method PushOverview(context: CodeContext) returns (lines: seq<SummaryLine>)
    ensures lines == Overview(context)
  {
    lines := [Title];
    if |context.frameworks| > 0 {
      lines := lines + [FrameworksLine(Names(context.frameworks))];
    }
    lines := lines + [StructureHeading];
    lines := lines + [TotalFiles(|context.projectStructure|)];
    lines := lines + [TestFiles(|context.tests|)];
    lines := lines + [ConfigFiles(|context.configs|)];
    lines := lines + [DocumentationFiles(|context.documentation|)];
  }

  method PushDependencySection(lines: seq<SummaryLine>, d: Record) returns (r: seq<SummaryLine>)
    ensures r == lines + DependencySection(d)
  {
    r := lines;
    if |d| > 0 {
      r := r + [DependenciesHeading];
      r := PushDependencies(r, FirstTen(d));
      r := r + [Blank];
    }
  }

  method PushFunctionSection(lines: seq<SummaryLine>, fs: seq<FunctionEntry>) returns (r: seq<SummaryLine>)
    ensures r == lines + FunctionSection(fs)
  {
    r := lines;
    if |fs| > 0 {
      r := r + [FunctionsHeading(|fs|)];
      r := PushFunctions(r, FirstTen(fs));
      r := r + [Blank];
    }
  }

  method PushClassSection(lines: seq<SummaryLine>, cs: seq<ClassEntry>) returns (r: seq<SummaryLine>)
    ensures r == lines + ClassSection(cs)
  {
    r := lines;
    if |cs| > 0 {
      r := r + [ClassesHeading(|cs|)];
      r := PushClasses(r, FirstTen(cs));
      r := r + [Blank];
    }
  }

  method PushApiSection(lines: seq<SummaryLine>, apis: seq<ApiEntry>) returns (r: seq<SummaryLine>)
    ensures r == lines + ApiSection(apis)
  {
    r := lines;
    if |apis| > 0 {
      r := r + [ApisHeading(|apis|)];
      r := PushApis(r, FirstTen(apis));
    }
  }

  /** `generateContextSummary`: the lines pushed one by one and joined with newlines. */
  method GenerateContextSummary(context: CodeContext) returns (summary: string)
    ensures summary == ContextSummary(context)
  {
    var lines := PushOverview(context);
    lines := PushDependencySection(lines, context.dependencies);
    lines := PushFunctionSection(lines, context.functions);
    lines := PushClassSection(lines, context.classes);
    lines := PushApiSection(lines, context.apis);
    summary := Join(RenderAll(lines), "\n");
  }
}
