/** The project analyzer behind onboarding: package names read from
    dependency files, the dependency lists, the architecture patterns found
    from which directories exist, the README summary, the linting and
    testing conventions, and the onboarding text built from an analysis.
    The file system is a parameter: whether a path exists, and the contents
    (or parsed keys) of the files read. */
module ProjectAnalyzer {
  import opened Wrappers
  import opened Text
  import opened Seqs

  /** Whether a path relative to the project root exists. */
  type PathExists = string -> bool

  // ---------------------------------------------------------------------
  // Package names

  /** `sep` occurs nowhere in `s`. */
  predicate Free(s: string, sep: string) {
    forall j :: 0 <= j < |s| ==> !(sep <= s[j..])
  }

  lemma FreePrefix(s: string, t: string, sep: string)
    requires t <= s && Free(s, sep)
    ensures Free(t, sep)
  {
    forall j | 0 <= j < |t|
      ensures !(sep <= t[j..])
    {
      assert t[j..] <= s[j..];
      assert !(sep <= s[j..]);
    }
  }

  /** Cutting a text at a separator it does not contain leaves it whole. */
  lemma BeforeFree(s: string, sep: string)
    requires |sep| > 0 && Free(s, sep)
    ensures Before(s, sep) == s
  {
    var r := Before(s, sep);
    assert !(sep <= s[|r|..]);
  }

  /** What comes before the first separator contains no separator. */
  lemma BeforeIsFree(s: string, sep: string)
    requires |sep| > 0
    ensures Free(Before(s, sep), sep)
  {
    var r := Before(s, sep);
    forall j | 0 <= j < |r|
      ensures !(sep <= r[j..])
    {
      assert r[j..] <= s[j..];
    }
  }

  /** `line.split('==')[0].split('>=')[0].split('<=')[0].split('[')[0]`: the prefix of the
      line before its first version operator or extras bracket. */
  function PackageName(line: string): (r: string)
    ensures r <= line
    ensures Free(r, "==") && Free(r, ">=") && Free(r, "<=") && Free(r, "[")
  {
    var a := Before(line, "==");
    var b := Before(a, ">=");
    var c := Before(b, "<=");
    var d := Before(c, "[");
    BeforeIsFree(line, "==");
    BeforeIsFree(a, ">=");
    BeforeIsFree(b, "<=");
    BeforeIsFree(c, "[");
    FreePrefix(a, b, "==");
    FreePrefix(b, c, "==");
    FreePrefix(c, d, "==");
    FreePrefix(b, c, ">=");
    FreePrefix(c, d, ">=");
    FreePrefix(c, d, "<=");
    d
  }

  /** A package name contains none of the operators, so reading it again changes nothing. */
  lemma PackageNameIdempotent(line: string)
    ensures PackageName(PackageName(line)) == PackageName(line)
  {
    var n := PackageName(line);
    BeforeFree(n, "==");
    BeforeFree(n, ">=");
    BeforeFree(n, "<=");
    BeforeFree(n, "[");
  }

  /** One line of a requirements file: blank lines, comments and option lines (`-r`, `-e`
      and the like) name no package, and neither does a line that starts with an operator. */
  function RequirementPackage(raw: string): (r: Option<string>)
    ensures r.Some? ==> r.value != "" && r.value == PackageName(Strip(raw))
    ensures r.Some? <==> Strip(raw) != "" && !StartsWith(Strip(raw), "#") && !StartsWith(Strip(raw), "-") &&
                         PackageName(Strip(raw)) != ""
  {
    var line := Strip(raw);
    if line != "" && !StartsWith(line, "#") && !StartsWith(line, "-") then
      var pkg := PackageName(line);
      if pkg != "" then Some(pkg) else None
    else None
  }

  /** The values `pick` finds in the lines, in line order. */
  function PickAll(lines: seq<string>, pick: string -> Option<string>): (names: seq<string>)
    ensures |names| <= |lines|
    decreases |lines|
  {
    if |lines| == 0 then []
    else
      var n := |lines| - 1;
      var p := PickAll(lines[..n], pick);
      match pick(lines[n])
      case Some(v) => p + [v]
      case None => p
  }

  /** The package names of the requirement lines, in line order. */
  function RequirementNames(lines: seq<string>): seq<string> {
    PickAll(lines, RequirementPackage)
  }

  /** Every collected value is what `pick` finds in some line. */
  lemma {:induction false} PickAllSound(lines: seq<string>, pick: string -> Option<string>)
    ensures forall x :: x in PickAll(lines, pick) ==> exists i :: 0 <= i < |lines| && pick(lines[i]) == Some(x)
    decreases |lines|
  {
    if |lines| > 0 {
      var n := |lines| - 1;
      var prefix := lines[..n];
      PickAllSound(prefix, pick);
      forall x | x in PickAll(lines, pick)
        ensures exists i :: 0 <= i < |lines| && pick(lines[i]) == Some(x)
      {
        if x in PickAll(prefix, pick) {
          var i :| 0 <= i < |prefix| && pick(prefix[i]) == Some(x);
          assert prefix[i] == lines[i];
        } else {
          assert pick(lines[n]) == Some(x);
        }
      }
    }
  }

  /** Every line in which `pick` finds a value contributes it. */
  lemma {:induction false} PickAllComplete(lines: seq<string>, pick: string -> Option<string>)
    ensures forall i :: 0 <= i < |lines| && pick(lines[i]).Some? ==> pick(lines[i]).value in PickAll(lines, pick)
    decreases |lines|
  {
    if |lines| > 0 {
      var n := |lines| - 1;
      var prefix := lines[..n];
      PickAllComplete(prefix, pick);
      forall i | 0 <= i < |lines| && pick(lines[i]).Some?
        ensures pick(lines[i]).value in PickAll(lines, pick)
      {
        if i < n {
          assert prefix[i] == lines[i];
        }
      }
    }
  }

  /** Appends the name of each dependency that has a non-empty one not already listed,
      in order. */
  function AddAbsentBy(main: seq<string>, deps: seq<string>, name: string -> string): (r: seq<string>)
    ensures main <= r
    decreases |deps|
  {
    if |deps| == 0 then main
    else
      var n := |deps| - 1;
      var p := AddAbsentBy(main, deps[..n], name);
      var pkg := name(deps[n]);
      if pkg != "" && pkg !in p then p + [pkg] else p
  }

  /** Appends the package name of each dependency not already listed, in order. */
  function AddAbsent(main: seq<string>, deps: seq<string>): seq<string> {
    AddAbsentBy(main, deps, PackageName)
  }

  /** Merging adds no duplicate to a list without duplicates. */
  lemma {:induction false} AddAbsentNoDuplicates(main: seq<string>, deps: seq<string>, name: string -> string)
    requires NoDuplicates(main)
    ensures NoDuplicates(AddAbsentBy(main, deps, name))
    decreases |deps|
  {
    if |deps| > 0 {
      AddAbsentNoDuplicates(main, deps[..|deps| - 1], name);
    }
  }

  /** Every non-empty name of the dependencies ends up in the merged list. */
  lemma {:induction false} AddAbsentComplete(main: seq<string>, deps: seq<string>, name: string -> string)
    ensures forall d :: d in deps && name(d) != "" ==> name(d) in AddAbsentBy(main, deps, name)
    decreases |deps|
  {
    if |deps| > 0 {
      var n := |deps| - 1;
      var prefix := deps[..n];
      AddAbsentComplete(main, prefix, name);
      forall d | d in deps && name(d) != ""
        ensures name(d) in AddAbsentBy(main, deps, name)
      {
        if d != deps[n] {
          var k :| 0 <= k < |deps| && deps[k] == d;
          assert k < n && prefix[k] == d;
        }
      }
    }
  }

  /** The merged list holds nothing but the listed entries and names of the dependencies. */
  lemma {:induction false} AddAbsentSound(main: seq<string>, deps: seq<string>, name: string -> string)
    ensures forall x :: x in AddAbsentBy(main, deps, name) ==> x in main || exists d :: d in deps && name(d) == x
    decreases |deps|
  {
    if |deps| > 0 {
      var n := |deps| - 1;
      var prefix := deps[..n];
      AddAbsentSound(main, prefix, name);
      var p := AddAbsentBy(main, prefix, name);
      forall x | x in AddAbsentBy(main, deps, name)
        ensures x in main || exists d :: d in deps && name(d) == x
      {
        if x !in p {
          assert x == name(deps[n]) && deps[n] in deps;
        } else if x !in main {
          var d :| d in prefix && name(d) == x;
          assert d in deps;
        }
      }
    }
  }

  /** The keys of `dependencies` and `devDependencies` in a `package.json`, in file order. */
  datatype PackageJson = PackageJson(dependencies: seq<string>, devDependencies: seq<string>)

  datatype Dependencies = Dependencies(main: seq<string>, dev: seq<string>)

  const MaxMainDependencies: nat := 20
  const MaxDevDependencies: nat := 10
  const MaxPackageDependencies: nat := 15
  const MaxPackageDevDependencies: nat := 10

  /** The lines of the requirements file, none when it is absent or unreadable. */
  function RequirementLines(requirements: Option<string>): seq<string> {
    if requirements.Some? then Split(requirements.value, '\n') else []
  }

  /** The main list before truncation: requirement names, then absent pyproject names, then
      at most 15 `package.json` dependencies. */
  function MainDependencies(requirements: Option<string>, pyprojectDeps: Option<seq<string>>, packageJson: Option<PackageJson>)
    : seq<string>
  {
    AddAbsent(RequirementNames(RequirementLines(requirements)), pyprojectDeps.GetOr([])) +
    (if packageJson.Some? then Take(packageJson.value.dependencies, MaxPackageDependencies) else [])
  }

  function DevDependencies(packageJson: Option<PackageJson>): seq<string> {
    if packageJson.Some? then Take(packageJson.value.devDependencies, MaxPackageDevDependencies) else []
  }

  /** `_analyze_dependencies`: the merged lists cut to 20 main and 10 development entries.
      A file that is absent or fails to parse contributes nothing. */
  function DependenciesOf(requirements: Option<string>, pyprojectDeps: Option<seq<string>>, packageJson: Option<PackageJson>)
    : (d: Dependencies)
    ensures |d.main| <= MaxMainDependencies && |d.dev| <= MaxDevDependencies
    ensures d.main == Take(MainDependencies(requirements, pyprojectDeps, packageJson), MaxMainDependencies)
    ensures d.dev == DevDependencies(packageJson)
  {
    Dependencies(Take(MainDependencies(requirements, pyprojectDeps, packageJson), MaxMainDependencies),
                 DevDependencies(packageJson))
  }

  /** Each file's contribution: the requirement names lead the main list, every non-empty
      pyproject name is in the list before the `package.json` part is appended, and that
      part holds at most 15 names. */
  lemma DependencySources(requirements: Option<string>, pyprojectDeps: Option<seq<string>>, packageJson: Option<PackageJson>)
    ensures RequirementNames(RequirementLines(requirements)) <= MainDependencies(requirements, pyprojectDeps, packageJson)
    ensures var merged := AddAbsent(RequirementNames(RequirementLines(requirements)), pyprojectDeps.GetOr([]));
            merged <= MainDependencies(requirements, pyprojectDeps, packageJson) &&
            (forall d :: d in pyprojectDeps.GetOr([]) && PackageName(d) != "" ==> PackageName(d) in merged) &&
            |MainDependencies(requirements, pyprojectDeps, packageJson)| <= |merged| + MaxPackageDependencies
  {
    AddAbsentComplete(RequirementNames(RequirementLines(requirements)), pyprojectDeps.GetOr([]), PackageName);
  }

  /** Collects the requirement names line by line. */
  method CollectRequirements(lines: seq<string>) returns (names: seq<string>)
    ensures names == RequirementNames(lines)
  {
    names := [];
    for i := 0 to |lines|
      invariant names == RequirementNames(lines[..i])
    {
      assert lines[..i + 1][..i] == lines[..i];
      var line := Strip(lines[i]);
      if line != "" && !StartsWith(line, "#") && !StartsWith(line, "-") {
        var pkg := PackageName(line);
        if pkg != "" {
          names := names + [pkg];
        }
      }
    }
    assert lines[..|lines|] == lines;
  }

  /** Appends each pyproject dependency not yet listed. */
  method MergeAbsent(main: seq<string>, deps: seq<string>) returns (merged: seq<string>)
    ensures merged == AddAbsent(main, deps)
  {
    merged := main;
    for i := 0 to |deps|
      invariant merged == AddAbsent(main, deps[..i])
    {
      assert deps[..i + 1][..i] == deps[..i];
      var pkg := PackageName(deps[i]);
      if pkg != "" && pkg !in merged {
        merged := merged + [pkg];
      }
    }
    assert deps[..|deps|] == deps;
  }

  /** `_analyze_dependencies`. An absent requirements file reads as no lines and an absent
      pyproject as no dependencies, so both steps run on every input. */
  method AnalyzeDependencies(requirements: Option<string>, pyprojectDeps: Option<seq<string>>, packageJson: Option<PackageJson>)
    returns (d: Dependencies)
    ensures d == DependenciesOf(requirements, pyprojectDeps, packageJson)
  {
    var main := CollectRequirements(RequirementLines(requirements));
    main := MergeAbsent(main, pyprojectDeps.GetOr([]));
    var dev: seq<string> := [];
    if packageJson.Some? {
      main := main + Take(packageJson.value.dependencies, MaxPackageDependencies);
      dev := dev + Take(packageJson.value.devDependencies, MaxPackageDevDependencies);
    }
    d := Dependencies(Take(main, MaxMainDependencies), Take(dev, MaxDevDependencies));
  }

  // ---------------------------------------------------------------------
  // Architecture patterns

  /** `d.rstrip('/')` */
  function RStripSlash(d: string): (r: string)
    ensures r <= d && (|r| == 0 || r[|r| - 1] != '/')
    decreases |d|
  {
    if |d| > 0 && d[|d| - 1] == '/' then RStripSlash(d[..|d| - 1]) else d
  }

  /** How many of the listed directories exist. */
  function ExistingCount(dirs: seq<string>, present: PathExists): (n: nat)
    ensures n <= |dirs|
    decreases |dirs|
  {
    if |dirs| == 0 then 0
    else ExistingCount(dirs[..|dirs| - 1], present) + (if present(RStripSlash(dirs[|dirs| - 1])) then 1 else 0)
  }

  /** `_has_pattern`: at least two of the directories exist. */
  predicate HasPattern(dirs: seq<string>, present: PathExists) {
    ExistingCount(dirs, present) >= 2
  }

  /** No listed directory present exactly when the count is zero; one present at position `i`
      and none after exactly when the count is one. */
  lemma {:induction false} ExistingCountZero(dirs: seq<string>, present: PathExists)
    ensures ExistingCount(dirs, present) == 0 <==> forall i :: 0 <= i < |dirs| ==> !present(RStripSlash(dirs[i]))
    decreases |dirs|
  {
    if |dirs| > 0 {
      var n := |dirs| - 1;
      ExistingCountZero(dirs[..n], present);
      assert forall i :: 0 <= i < n ==> dirs[..n][i] == dirs[i];
    }
  }

  /** The pattern holds exactly when two different positions of the list exist. */
  lemma {:induction false} HasPatternIff(dirs: seq<string>, present: PathExists)
    ensures HasPattern(dirs, present) <==>
              exists i, j :: 0 <= i < j < |dirs| && present(RStripSlash(dirs[i])) && present(RStripSlash(dirs[j]))
    decreases |dirs|
  {
    if |dirs| > 0 {
      var n := |dirs| - 1;
      var prefix := dirs[..n];
      HasPatternIff(prefix, present);
      ExistingCountZero(prefix, present);
      assert forall i :: 0 <= i < n ==> prefix[i] == dirs[i];
      if HasPattern(dirs, present) && !HasPattern(prefix, present) {
        assert present(RStripSlash(dirs[n])) && ExistingCount(prefix, present) != 0;
        var i :| 0 <= i < n && present(RStripSlash(prefix[i]));
        assert present(RStripSlash(dirs[i])) && present(RStripSlash(dirs[n]));
      }
      if !HasPattern(dirs, present) {
        forall i, j | 0 <= i < j < |dirs| && present(RStripSlash(dirs[i]))
          ensures !present(RStripSlash(dirs[j]))
        {
          if j < n {
            assert !HasPattern(prefix, present);
            assert prefix[i] == dirs[i] && prefix[j] == dirs[j];
          } else {
            assert prefix[i] == dirs[i];
          }
        }
      }
    }
  }

  /** The known layout directories and what each suggests, in table order. */
  const ArchitecturePatterns: seq<(string, string)> := [
    ("src/", "Código fuente separado"),
    ("lib/", "Librerías internas"),
    ("tests/", "Tests unitarios"),
    ("test/", "Tests unitarios"),
    ("spec/", "Tests (estilo BDD)"),
    ("docs/", "Documentación"),
    ("scripts/", "Scripts de utilidad"),
    ("config/", "Configuración separada"),
    ("migrations/", "Migraciones de BD"),
    ("api/", "Capa API"),
    ("models/", "Modelos de datos"),
    ("controllers/", "Controladores (MVC)"),
    ("views/", "Vistas (MVC)"),
    ("services/", "Servicios de negocio"),
    ("repositories/", "Capa de acceso a datos"),
    ("domain/", "Lógica de dominio (DDD)"),
    ("infrastructure/", "Infraestructura (DDD)"),
    ("application/", "Capa de aplicación (DDD)"),
    ("components/", "Componentes (Frontend)"),
    ("pages/", "Páginas (Next.js/Nuxt)"),
    ("hooks/", "Custom hooks (React)"),
    ("utils/", "Utilidades"),
    ("helpers/", "Helpers")]

  const DddDirs: seq<string> := ["domain/", "infrastructure/", "application/"]
  const MvcDirs: seq<string> := ["models/", "views/", "controllers/"]
  const ReactDirs: seq<string> := ["components/", "hooks/", "pages/"]
  const LayeredDirs: seq<string> := ["services/", "repositories/"]

  datatype PatternEntry =
    | DirectoryPattern(directory: string, description: string)
    | CompositePattern(name: string, confidence: string)

  /** The table entries whose directory present, in table order. */
  function DirectoryPatterns(table: seq<(string, string)>, present: PathExists): (r: seq<PatternEntry>)
    ensures |r| <= |table|
    ensures forall k :: 0 <= k < |r| ==> r[k].DirectoryPattern?
    decreases |table|
  {
    if |table| == 0 then []
    else
      var n := |table| - 1;
      DirectoryPatterns(table[..n], present) +
      (if present(RStripSlash(table[n].0)) then [DirectoryPattern(table[n].0, table[n].1)] else [])
  }

  /** The one composite pattern, by priority: DDD, then MVC, then React, then layered. */
  function CompositeOf(present: PathExists): (r: Option<PatternEntry>)
    ensures r.Some? ==> r.value.CompositePattern?
    ensures r.None? <==> !HasPattern(DddDirs, present) && !HasPattern(MvcDirs, present) &&
                         !HasPattern(ReactDirs, present) && !HasPattern(LayeredDirs, present)
    ensures HasPattern(DddDirs, present) ==> r == Some(CompositePattern("Domain-Driven Design (DDD)", "high"))
    ensures r == Some(CompositePattern("MVC (Model-View-Controller)", "high")) <==>
              !HasPattern(DddDirs, present) && HasPattern(MvcDirs, present)
    ensures r == Some(CompositePattern("React/Next.js Structure", "high")) <==>
              !HasPattern(DddDirs, present) && !HasPattern(MvcDirs, present) && HasPattern(ReactDirs, present)
    ensures r == Some(CompositePattern("Layered Architecture", "medium")) <==>
              !HasPattern(DddDirs, present) && !HasPattern(MvcDirs, present) && !HasPattern(ReactDirs, present) &&
              HasPattern(LayeredDirs, present)
  {
    if HasPattern(DddDirs, present) then Some(CompositePattern("Domain-Driven Design (DDD)", "high"))
    else if HasPattern(MvcDirs, present) then Some(CompositePattern("MVC (Model-View-Controller)", "high"))
    else if HasPattern(ReactDirs, present) then Some(CompositePattern("React/Next.js Structure", "high"))
    else if HasPattern(LayeredDirs, present) then Some(CompositePattern("Layered Architecture", "medium"))
    else None
  }

  function OptionList<T>(o: Option<T>): seq<T> {
    if o.Some? then [o.value] else []
  }

  /** Appends an entry for each table directory that exists. */
  method ScanDirectories(table: seq<(string, string)>, present: PathExists) returns (patterns: seq<PatternEntry>)
    ensures patterns == DirectoryPatterns(table, present)
  {
    patterns := [];
    for i := 0 to |table|
      invariant patterns == DirectoryPatterns(table[..i], present)
    {
      assert table[..i + 1][..i] == table[..i];
      if present(RStripSlash(table[i].0)) {
        patterns := patterns + [DirectoryPattern(table[i].0, table[i].1)];
      }
    }
    assert table[..|table|] == table;
  }

  /** `_identify_patterns`: the existing table directories, then the composite pattern. */
  method IdentifyPatterns(present: PathExists) returns (patterns: seq<PatternEntry>)
    ensures patterns == DirectoryPatterns(ArchitecturePatterns, present) + OptionList(CompositeOf(present))
  {
    patterns := ScanDirectories(ArchitecturePatterns, present);
    if HasPattern(DddDirs, present) {
      patterns := patterns + [CompositePattern("Domain-Driven Design (DDD)", "high")];
    } else if HasPattern(MvcDirs, present) {
      patterns := patterns + [CompositePattern("MVC (Model-View-Controller)", "high")];
    } else if HasPattern(ReactDirs, present) {
      patterns := patterns + [CompositePattern("React/Next.js Structure", "high")];
    } else if HasPattern(LayeredDirs, present) {
      patterns := patterns + [CompositePattern("Layered Architecture", "medium")];
    }
  }

  /** At most one composite pattern is reported, and it comes last. */
  lemma AtMostOneComposite(table: seq<(string, string)>, present: PathExists)
    ensures var p := DirectoryPatterns(table, present) + OptionList(CompositeOf(present));
            forall i :: 0 <= i < |p| - 1 ==> p[i].DirectoryPattern?
  {
  }

  // ---------------------------------------------------------------------
  // README summary

  const ReadmeNames: seq<string> := ["README.md", "README.rst", "README.txt", "README"]
  const ReadmeLineLimit: nat := 30
  const ReadmeCharLimit: nat := 1000

  /** The contents of the first README name that present. */
  function FirstReadme(names: seq<string>, read: string -> Option<string>): (r: Option<string>)
    ensures r.Some? ==> exists i :: 0 <= i < |names| && read(names[i]) == r &&
                                    forall k :: 0 <= k < i ==> read(names[k]).None?
    ensures r.None? ==> forall i :: 0 <= i < |names| ==> read(names[i]).None?
    decreases |names|
  {
    if |names| == 0 then None
    else if read(names[0]).Some? then read(names[0])
    else
      var r := FirstReadme(names[1..], read);
      assert forall i :: 1 <= i < |names| ==> names[1..][i - 1] == names[i];
      r
  }

  predicate IsHeading(line: string) {
    StartsWith(line, "## ")
  }

  /** The lines up to, not including, the first second-level heading. */
  function UntilHeading(lines: seq<string>): seq<string>
    decreases |lines|
  {
    if |lines| == 0 || IsHeading(lines[0]) then [] else [lines[0]] + UntilHeading(lines[1..])
  }

  /** The first line whatever it is, then the lines up to the next heading. */
  function SummaryLines(lines: seq<string>): seq<string> {
    if |lines| == 0 then [] else [lines[0]] + UntilHeading(lines[1..])
  }

  lemma {:induction false} UntilHeadingCut(lines: seq<string>)
    ensures var u := UntilHeading(lines);
            u <= lines && (forall k :: 0 <= k < |u| ==> !IsHeading(u[k])) &&
            (|u| < |lines| ==> IsHeading(lines[|u|]))
    decreases |lines|
  {
    if |lines| > 0 && !IsHeading(lines[0]) {
      UntilHeadingCut(lines[1..]);
      var u := UntilHeading(lines);
      assert u == [lines[0]] + UntilHeading(lines[1..]);
      forall k | 0 <= k < |u|
        ensures !IsHeading(u[k])
      {
        if k > 0 {
          assert u[k] == UntilHeading(lines[1..])[k - 1];
        }
      }
      if |u| < |lines| {
        assert lines[|u|] == lines[1..][|u| - 1];
      }
    }
  }

  /** The summary is a prefix of the lines: the first line, then no heading, and it stops
      exactly at a heading or at the end. */
  lemma SummaryLinesCut(lines: seq<string>)
    ensures var s := SummaryLines(lines);
            s <= lines && (|s| == 0 <==> |lines| == 0) &&
            (forall k :: 1 <= k < |s| ==> !IsHeading(s[k])) &&
            (|s| < |lines| ==> IsHeading(lines[|s|]))
  {
    if |lines| > 0 {
      UntilHeadingCut(lines[1..]);
      var s := SummaryLines(lines);
      forall k | 1 <= k < |s|
        ensures !IsHeading(s[k])
      {
        assert s[k] == UntilHeading(lines[1..])[k - 1];
      }
      if |s| < |lines| {
        assert lines[|s|] == lines[1..][|s| - 1];
      }
    }
  }

  /** The summary of a README text: its summary lines among the first 30, joined, cut to
      1000 characters. */
  function ReadmeSummaryOf(content: string): (r: string)
    ensures |r| <= ReadmeCharLimit
    ensures r <= Join("\n", SummaryLines(Take(Split(content, '\n'), ReadmeLineLimit)))
  {
    Take(Join("\n", SummaryLines(Take(Split(content, '\n'), ReadmeLineLimit))), ReadmeCharLimit)
  }

  /** Collects lines until a heading follows collected text. */
  method ReadmeSummary(content: string) returns (summary: string)
    ensures summary == ReadmeSummaryOf(content)
  {
    var lines := Take(Split(content, '\n'), ReadmeLineLimit);
    var summaryLines: seq<string> := [];
    var i := 0;
    while i < |lines|
      invariant 0 <= i <= |lines|
      invariant summaryLines == lines[..i]
      invariant i > 0 ==> SummaryLines(lines) == lines[..i] + UntilHeading(lines[i..])
    {
      if IsHeading(lines[i]) && |summaryLines| > 0 {
        break;
      }
      if i > 0 {
        assert lines[i..][1..] == lines[i + 1..];
      } else {
        assert lines[1..] == lines[i + 1..];
      }
      summaryLines := summaryLines + [lines[i]];
      i := i + 1;
    }
    assert SummaryLines(lines) == summaryLines;
    summary := Take(Join("\n", summaryLines), ReadmeCharLimit);
  }

  // ---------------------------------------------------------------------
  // Conventions

  const LintingTools: seq<(string, string)> := [
    (".eslintrc", "ESLint"),
    (".eslintrc.js", "ESLint"),
    (".eslintrc.json", "ESLint"),
    ("eslint.config.js", "ESLint (flat config)"),
    (".prettierrc", "Prettier"),
    ("prettier.config.js", "Prettier"),
    (".flake8", "Flake8"),
    ("setup.cfg", "Flake8/otros (setup.cfg)"),
    ("pyproject.toml", "Ruff/Black/isort (revisar pyproject)"),
    (".editorconfig", "EditorConfig"),
    ("tslint.json", "TSLint (deprecated)"),
    (".stylelintrc", "Stylelint")]

  const TestingTools: seq<(string, string)> := [
    ("pytest.ini", "pytest"),
    ("conftest.py", "pytest"),
    ("tests/", "Tests estructurados"),
    ("jest.config.js", "Jest"),
    ("jest.config.ts", "Jest"),
    ("vitest.config.js", "Vitest"),
    ("vitest.config.ts", "Vitest"),
    ("cypress.config.js", "Cypress (E2E)"),
    ("playwright.config.ts", "Playwright (E2E)")]

  /** Whether a tool's marker file present; testing markers are looked up without their
      trailing slash. */
  predicate ToolFound(entry: (string, string), present: PathExists, stripSlash: bool) {
    present(if stripSlash then RStripSlash(entry.0) else entry.0)
  }

  /** The tools whose marker present, in table order, repeats included. */
  function DetectedTools(table: seq<(string, string)>, present: PathExists, stripSlash: bool): seq<string>
    decreases |table|
  {
    if |table| == 0 then []
    else
      var n := |table| - 1;
      DetectedTools(table[..n], present, stripSlash) + (if ToolFound(table[n], present, stripSlash) then [table[n].1] else [])
  }

  lemma {:induction false} DetectedToolsMembership(table: seq<(string, string)>, present: PathExists, stripSlash: bool, t: string)
    ensures t in DetectedTools(table, present, stripSlash) <==>
              exists i :: 0 <= i < |table| && ToolFound(table[i], present, stripSlash) && table[i].1 == t
    decreases |table|
  {
    if |table| > 0 {
      var n := |table| - 1;
      DetectedToolsMembership(table[..n], present, stripSlash, t);
      assert forall i :: 0 <= i < n ==> table[..n][i] == table[i];
    }
  }

  datatype Conventions = Conventions(linting: seq<string>, testing: seq<string>)

  /** Scans a marker table, then drops repeats (the order of the result is not fixed). */
  method ScanTools(table: seq<(string, string)>, present: PathExists, stripSlash: bool) returns (tools: seq<string>)
    ensures NoDuplicates(tools)
    ensures forall t :: t in tools <==> exists i :: 0 <= i < |table| && ToolFound(table[i], present, stripSlash) && table[i].1 == t
  {
    var detected: seq<string> := [];
    for i := 0 to |table|
      invariant detected == DetectedTools(table[..i], present, stripSlash)
    {
      assert table[..i + 1][..i] == table[..i];
      if ToolFound(table[i], present, stripSlash) {
        detected := detected + [table[i].1];
      }
    }
    assert table[..|table|] == table;
    tools := Distinct(detected);
    forall t
      ensures t in tools <==> exists i :: 0 <= i < |table| && ToolFound(table[i], present, stripSlash) && table[i].1 == t
    {
      DetectedToolsMembership(table, present, stripSlash, t);
    }
  }

  /** `_detect_conventions`: each list names every tool whose marker present, once. */
  method DetectConventions(present: PathExists) returns (c: Conventions)
    ensures NoDuplicates(c.linting) && NoDuplicates(c.testing)
    ensures forall t :: t in c.linting <==>
              exists i :: 0 <= i < |LintingTools| && ToolFound(LintingTools[i], present, false) && LintingTools[i].1 == t
    ensures forall t :: t in c.testing <==>
              exists i :: 0 <= i < |TestingTools| && ToolFound(TestingTools[i], present, true) && TestingTools[i].1 == t
  {
    var linting := ScanTools(LintingTools, present, false);
    var testing := ScanTools(TestingTools, present, true);
    c := Conventions(linting, testing);
  }

  // ---------------------------------------------------------------------
  // Configuration files

  /** The fields read from `pyproject.toml`; a missing key is `None`. */
  datatype ProjectInfo = ProjectInfo(name: Option<string>, description: Option<string>, version: Option<string>,
                                     pythonRequires: Option<string>)

  /** The fields read from `package.json`, with its script names in file order. */
  datatype PackageInfo = PackageInfo(name: Option<string>, description: Option<string>, version: Option<string>,
                                     main: Option<string>, scripts: seq<string>)

  /** The configuration found; `None` marks a key the report does not carry. */
  datatype ConfigInfo = ConfigInfo(readmeSummary: Option<string>, projectInfo: Option<ProjectInfo>,
                                   packageInfo: Option<PackageInfo>)
  {
    predicate IsEmpty() {
      readmeSummary.None? && projectInfo.None? && packageInfo.None?
    }
  }

  const MaxScripts: nat := 10

  /** `_read_config_files`: the summary of the first README that exists, the pyproject fields
      and the `package.json` fields with at most ten script names. A file that is absent or
      fails to parse is `None` here. */
  function ReadConfigFiles(read: string -> Option<string>, projectInfo: Option<ProjectInfo>, packageInfo: Option<PackageInfo>)
    : (c: ConfigInfo)
    ensures c.readmeSummary.Some? <==> FirstReadme(ReadmeNames, read).Some?
    ensures c.readmeSummary.Some? ==>
              c.readmeSummary.value == ReadmeSummaryOf(FirstReadme(ReadmeNames, read).value) &&
              |c.readmeSummary.value| <= ReadmeCharLimit
    ensures c.projectInfo == projectInfo
    ensures c.packageInfo.Some? <==> packageInfo.Some?
    ensures c.packageInfo.Some? ==>
              c.packageInfo.value.scripts <= packageInfo.value.scripts && |c.packageInfo.value.scripts| <= MaxScripts
  {
    var readme := FirstReadme(ReadmeNames, read);
    ConfigInfo(if readme.Some? then Some(ReadmeSummaryOf(readme.value)) else None,
               projectInfo,
               if packageInfo.Some? then Some(packageInfo.value.(scripts := Take(packageInfo.value.scripts, MaxScripts)))
               else None)
  }

  // ---------------------------------------------------------------------
  // The onboarding text

  datatype StackItem = StackItem(technology: string, indicator: string, description: string)

  /** The directory scan: top-level directories and the commonest extensions with counts. */
  datatype Structure = Structure(mainDirectories: seq<string>, fileTypes: seq<(string, nat)>, totalDirs: nat)

  datatype Analysis = Analysis(
    projectName: string,
    projectPath: string,
    structure: Structure,
    stack: seq<StackItem>,
    patterns: seq<PatternEntry>,
    config: ConfigInfo,
    dependencies: Dependencies,
    conventions: Conventions)

  /** One line per item, in order. */
  function Mapped<T>(items: seq<T>, line: T -> string): (r: seq<string>)
    ensures |r| == |items|
    decreases |items|
  {
    if |items| == 0 then [] else Mapped(items[..|items| - 1], line) + [line(items[|items| - 1])]
  }

  function HeaderLines(a: Analysis): seq<string> {
    ["# Análisis de Onboarding: " + a.projectName, "\nRuta: " + a.projectPath]
  }

  function StackLine(item: StackItem): string {
    "- **" + item.technology + "**: " + item.description + " (detectado por `" + item.indicator + "`)"
  }

  function StackSection(stack: seq<StackItem>): seq<string> {
    if |stack| == 0 then [] else ["\n## Stack Tecnológico"] + Mapped(stack, StackLine)
  }

  function DirectoryLine(d: string): string {
    "- `" + d + "/`"
  }

  function FileTypeLine(entry: (string, nat)): string {
    "- `" + entry.0 + "`: " + NatToString(entry.1) + " archivos"
  }

  function StructureSection(st: Structure): seq<string> {
    ["\n## Estructura del Proyecto"] +
    (if |st.mainDirectories| > 0 then ["Directorios principales:"] + Mapped(st.mainDirectories, DirectoryLine) else []) +
    (if |st.fileTypes| > 0 then ["\nTipos de archivo más comunes:"] + Mapped(st.fileTypes, FileTypeLine) else [])
  }

  function PatternLine(p: PatternEntry): string {
    match p
    case CompositePattern(name, confidence) => "- **" + name + "** (confianza: " + confidence + ")"
    case DirectoryPattern(directory, description) => "- `" + directory + "`: " + description
  }

  function PatternSection(patterns: seq<PatternEntry>): seq<string> {
    if |patterns| == 0 then [] else ["\n## Patrones Arquitectónicos"] + Mapped(patterns, PatternLine)
  }

  /** The project fields that are present and non-empty. */
  function ProjectInfoLines(info: Option<ProjectInfo>): seq<string> {
    if info.None? then []
    else
      (if Given(info.value.name) then ["- Nombre: " + info.value.name.value] else []) +
      (if Given(info.value.description) then ["- Descripción: " + info.value.description.value] else []) +
      (if Given(info.value.pythonRequires) then ["- Python requerido: " + info.value.pythonRequires.value] else [])
  }

  const ReadmeExcerpt: nat := 500

  function ReadmeLines(summary: Option<string>): seq<string> {
    if summary.None? then []
    else ["\n### Resumen del README:", "```\n" + Take(summary.value, ReadmeExcerpt) + "...\n```"]
  }

  function ConfigSection(c: ConfigInfo): seq<string> {
    if c.IsEmpty() then []
    else ["\n## Configuración del Proyecto"] + ProjectInfoLines(c.projectInfo) + ReadmeLines(c.readmeSummary)
  }

  function DependencySection(d: Dependencies): seq<string> {
    if |d.main| == 0 then [] else ["\n## Dependencias Principales", Join(", ", d.main)]
  }

  function ConventionSection(c: Conventions): seq<string> {
    ["\n## Convenciones Detectadas"] +
    (if |c.linting| > 0 then ["- **Linting/Formateo**: " + Join(", ", c.linting)] else []) +
    (if |c.testing| > 0 then ["- **Testing**: " + Join(", ", c.testing)] else [])
  }

  const RecommendationsHeader: string := "\n## Recomendaciones para el Agente"
  const TestsAdvice: string := "- Añadir tests para nuevo código"
  const ConsultAdvice: string := "- Consultar esta memoria antes de tomar decisiones arquitectónicas"

  function Recommendations(testing: seq<string>): seq<string> {
    [RecommendationsHeader, "- Seguir las convenciones de código detectadas", "- Respetar la estructura de directorios existente"] +
    (if |testing| > 0 then [TestsAdvice] else []) +
    [ConsultAdvice]
  }

  /** Every section but the recommendations, in report order. */
  function BodyLines(a: Analysis): seq<string> {
    HeaderLines(a) + StackSection(a.stack) + StructureSection(a.structure) + PatternSection(a.patterns) +
    ConfigSection(a.config) + DependencySection(a.dependencies) + ConventionSection(a.conventions)
  }

  function OnboardingText(a: Analysis): string {
    Join("\n", BodyLines(a) + Recommendations(a.conventions.testing))
  }

  /** The report opens with its title. */
  lemma OnboardingStart(a: Analysis)
    ensures StartsWith(OnboardingText(a), "# Análisis de Onboarding: " + a.projectName)
  {
    var lines := BodyLines(a) + Recommendations(a.conventions.testing);
    JoinStartsWith("\n", lines);
    assert lines[0] == BodyLines(a)[0] == HeaderLines(a)[0];
  }

  /** The report always closes with the recommendations. */
  lemma OnboardingEnd(a: Analysis)
    ensures EndsWith(OnboardingText(a), "\n" + Join("\n", Recommendations(a.conventions.testing)))
  {
    var body := BodyLines(a);
    var rec := Recommendations(a.conventions.testing);
    JoinConcat("\n", body, rec);
    var suffix := "\n" + Join("\n", rec);
    var text := Join("\n", body) + suffix;
    assert text[|text| - |suffix|..] == suffix;
  }

  /** The recommendations end with the advice to consult the memory, and advise adding
      tests exactly when testing conventions were detected. */
  lemma RecommendationsShape(testing: seq<string>)
    ensures EndsWith(Join("\n", Recommendations(testing)), ConsultAdvice)
    ensures TestsAdvice in Recommendations(testing) <==> |testing| > 0
  {
    var rec := Recommendations(testing);
    var front := rec[..|rec| - 1];
    assert rec == front + [ConsultAdvice];
    JoinAppend("\n", front, ConsultAdvice);
    var t := Join("\n", front) + "\n" + ConsultAdvice;
    assert t[|t| - |ConsultAdvice|..] == ConsultAdvice;
  }

  /** Appends one line per item. */
  method AppendMapped<T>(sections: seq<string>, items: seq<T>, line: T -> string) returns (out: seq<string>)
    ensures out == sections + Mapped(items, line)
  {
    out := sections;
    for i := 0 to |items|
      invariant out == sections + Mapped(items[..i], line)
    {
      assert items[..i + 1][..i] == items[..i];
      out := out + [line(items[i])];
    }
    assert items[..|items|] == items;
  }

  method AppendStructure(sections: seq<string>, st: Structure) returns (out: seq<string>)
    ensures out == sections + StructureSection(st)
  {
    out := sections + ["\n## Estructura del Proyecto"];
    ghost var dirPart: seq<string> := [];
    if |st.mainDirectories| > 0 {
      out := out + ["Directorios principales:"];
      out := AppendMapped(out, st.mainDirectories, DirectoryLine);
      dirPart := ["Directorios principales:"] + Mapped(st.mainDirectories, DirectoryLine);
    }
    assert out == sections + ["\n## Estructura del Proyecto"] + dirPart;
    ghost var typePart: seq<string> := [];
    if |st.fileTypes| > 0 {
      out := out + ["\nTipos de archivo más comunes:"];
      out := AppendMapped(out, st.fileTypes, FileTypeLine);
      typePart := ["\nTipos de archivo más comunes:"] + Mapped(st.fileTypes, FileTypeLine);
    }
    assert out == sections + ["\n## Estructura del Proyecto"] + dirPart + typePart;
    assert StructureSection(st) == ["\n## Estructura del Proyecto"] + dirPart + typePart;
  }

  method AppendProjectInfo(sections: seq<string>, info: ProjectInfo) returns (out: seq<string>)
    ensures out == sections + ProjectInfoLines(Some(info))
  {
    var nameLines: seq<string> := [];
    var descriptionLines: seq<string> := [];
    var requiresLines: seq<string> := [];
    out := sections;
    if Given(info.name) {
      nameLines := ["- Nombre: " + info.name.value];
      out := out + nameLines;
    }
    if Given(info.description) {
      descriptionLines := ["- Descripción: " + info.description.value];
      out := out + descriptionLines;
    }
    if Given(info.pythonRequires) {
      requiresLines := ["- Python requerido: " + info.pythonRequires.value];
      out := out + requiresLines;
    }
    assert ProjectInfoLines(Some(info)) == nameLines + descriptionLines + requiresLines;
  }

  method AppendConfig(sections: seq<string>, c: ConfigInfo) returns (out: seq<string>)
    ensures out == sections + ConfigSection(c)
  {
    out := sections;
    if !c.IsEmpty() {
      out := out + ["\n## Configuración del Proyecto"];
      if c.projectInfo.Some? {
        out := AppendProjectInfo(out, c.projectInfo.value);
      }
      ghost var withInfo := out;
      if c.readmeSummary.Some? {
        out := out + ["\n### Resumen del README:"];
        out := out + ["```\n" + Take(c.readmeSummary.value, ReadmeExcerpt) + "...\n```"];
      }
      assert out == withInfo + ReadmeLines(c.readmeSummary);
    }
  }

  method AppendSection<T>(sections: seq<string>, heading: string, items: seq<T>, line: T -> string) returns (out: seq<string>)
    ensures out == sections + (if |items| == 0 then [] else [heading] + Mapped(items, line))
  {
    out := sections;
    if |items| > 0 {
      out := out + [heading];
      out := AppendMapped(out, items, line);
    }
  }

  method AppendDependencies(sections: seq<string>, d: Dependencies) returns (out: seq<string>)
    ensures out == sections + DependencySection(d)
  {
    out := sections;
    if |d.main| > 0 {
      out := out + ["\n## Dependencias Principales"];
      out := out + [Join(", ", d.main)];
    }
  }

  method AppendConventions(sections: seq<string>, c: Conventions) returns (out: seq<string>)
    ensures out == sections + ConventionSection(c) + Recommendations(c.testing)
  {
    out := sections + ["\n## Convenciones Detectadas"];
    if |c.linting| > 0 {
      out := out + ["- **Linting/Formateo**: " + Join(", ", c.linting)];
    }
    if |c.testing| > 0 {
      out := out + ["- **Testing**: " + Join(", ", c.testing)];
    }
    assert out == sections + ConventionSection(c);
    out := out + [RecommendationsHeader];
    out := out + ["- Seguir las convenciones de código detectadas"];
    out := out + ["- Respetar la estructura de directorios existente"];
    if |c.testing| > 0 {
      out := out + [TestsAdvice];
    }
    out := out + [ConsultAdvice];
  }

  /** `generate_onboarding_text`: appends the sections in order and joins them by lines. */
  method GenerateOnboardingText(a: Analysis) returns (text: string)
    ensures text == OnboardingText(a)
  {
    var sections: seq<string> := [];
    sections := sections + ["# Análisis de Onboarding: " + a.projectName];
    sections := sections + ["\nRuta: " + a.projectPath];
    assert sections == HeaderLines(a);
    sections := AppendSection(sections, "\n## Stack Tecnológico", a.stack, StackLine);
    sections := AppendStructure(sections, a.structure);
    sections := AppendSection(sections, "\n## Patrones Arquitectónicos", a.patterns, PatternLine);
    sections := AppendConfig(sections, a.config);
    sections := AppendDependencies(sections, a.dependencies);
    sections := AppendConventions(sections, a.conventions);
    text := Join("\n", sections);
  }
}
