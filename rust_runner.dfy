/**
  * Running a Rust exercise inside a throw-away Cargo project (src/execution/rust_runner.rs).
  * `cargo run` is a function from the manifest, the program text and the optional
  * standard input to the process outcome.
  */
module RustRunner {
  import opened Wrappers
  import opened Text
  import opened Languages
  import opened FileManager

  /** What a finished `cargo run` reports. */
  datatype ProcessOutput = ProcessOutput(success: bool, stdout: string, stderr: string)

  type CargoRun = (string, string, Option<string>) -> ProcessOutput

  /** One row of the crate table: the crate name and its `[dependencies]` line. */
  datatype CratePattern = CratePattern(name: string, line: string)

  /** The crates `detect_dependencies` knows, in the order it checks them. */
  const CratePatterns: seq<CratePattern> := [
    CratePattern("rand", "rand = \"0.8\""),
    CratePattern("serde", "serde = { version = \"1.0\", features = [\"derive\"] }"),
    CratePattern("serde_json", "serde_json = \"1.0\""),
    CratePattern("tokio", "tokio = { version = \"1\", features = [\"full\"] }"),
    CratePattern("reqwest", "reqwest = { version = \"0.12\", features = [\"json\", \"blocking\"] }"),
    CratePattern("clap", "clap = { version = \"4.5\", features = [\"derive\"] }")
  ]

  /** The code mentions the crate in one of the three recognised forms. */
  predicate UsesCrate(code: string, name: string) {
    Contains(code, "use " + name + "::")
    || Contains(code, "use " + name + ";")
    || Contains(code, "extern crate " + name)
  }

  /** The dependency lines of the table rows from `i` on whose crate the code uses, in table order. */
  function DetectedFrom(code: string, i: nat): (deps: seq<string>)
    requires i <= |CratePatterns|
    ensures |deps| <= |CratePatterns| - i
    decreases |CratePatterns| - i
  {
    if i == |CratePatterns| then []
    else if UsesCrate(code, CratePatterns[i].name) then [CratePatterns[i].line] + DetectedFrom(code, i + 1)
    else DetectedFrom(code, i + 1)
  }

  function Detected(code: string): seq<string> {
    DetectedFrom(code, 0)
  }

  /** `RustRunner::detect_dependencies`: walks the crate table once, keeping the rows the code uses. */
  method DetectDependencies(code: string) returns (deps: seq<string>)
    ensures deps == Detected(code)
  {
    deps := [];
    var i := 0;
    while i < |CratePatterns|
      invariant i <= |CratePatterns|
      invariant deps + DetectedFrom(code, i) == Detected(code)
    {
      var p := CratePatterns[i];
      if UsesCrate(code, p.name) {
        deps := deps + [p.line];
      }
      i := i + 1;
    }
  }

  /** A table row's line is among the detected dependencies exactly when the code uses its crate. */
  lemma {:induction false} DetectedFromIff(code: string, i: nat, j: nat)
    requires i <= j < |CratePatterns|
    ensures CratePatterns[j].line in DetectedFrom(code, i) <==> UsesCrate(code, CratePatterns[j].name)
    decreases |CratePatterns| - i
  {
    if i < j {
      DetectedFromIff(code, i + 1, j);
      assert CratePatterns[i].line != CratePatterns[j].line;
    } else {
      DetectedFromOnlyLater(code, i + 1, j);
    }
  }

  /** Rows before `i` never appear among the dependencies detected from `i` on. */
  lemma {:induction false} DetectedFromOnlyLater(code: string, i: nat, j: nat)
    requires j < i <= |CratePatterns|
    ensures CratePatterns[j].line !in DetectedFrom(code, i)
    decreases |CratePatterns| - i
  {
    if i < |CratePatterns| {
      DetectedFromOnlyLater(code, i + 1, j);
      assert CratePatterns[i].line != CratePatterns[j].line;
    }
  }

  /**
    * Detection is exact and never repeats a line: every detected line is a table line, and
    * a table line is detected exactly when the code uses its crate.
    */
  lemma DetectedIsExact(code: string)
    ensures forall d :: d in Detected(code) ==> exists j :: 0 <= j < |CratePatterns| && CratePatterns[j].line == d
    ensures forall j :: 0 <= j < |CratePatterns| ==>
      (CratePatterns[j].line in Detected(code) <==> UsesCrate(code, CratePatterns[j].name))
    ensures forall a, b :: 0 <= a < b < |Detected(code)| ==> Detected(code)[a] != Detected(code)[b]
  {
    forall j | 0 <= j < |CratePatterns|
      ensures CratePatterns[j].line in Detected(code) <==> UsesCrate(code, CratePatterns[j].name)
    {
      DetectedFromIff(code, 0, j);
    }
    DetectedFromTable(code, 0);
    DetectedFromDistinct(code, 0);
  }

  /** Lines detected from row `i` on are table lines at or after `i`. */
  lemma {:induction false} DetectedFromTable(code: string, i: nat)
    requires i <= |CratePatterns|
    ensures forall d :: d in DetectedFrom(code, i) ==> exists j :: i <= j < |CratePatterns| && CratePatterns[j].line == d
    decreases |CratePatterns| - i
  {
    if i < |CratePatterns| {
      DetectedFromTable(code, i + 1);
    }
  }

  /** Lines detected from row `i` on never repeat. */
  lemma {:induction false} DetectedFromDistinct(code: string, i: nat)
    requires i <= |CratePatterns|
    ensures forall a, b :: 0 <= a < b < |DetectedFrom(code, i)| ==> DetectedFrom(code, i)[a] != DetectedFrom(code, i)[b]
    decreases |CratePatterns| - i
  {
    if i < |CratePatterns| {
      DetectedFromDistinct(code, i + 1);
      DetectedFromOnlyLater(code, i + 1, i);
    }
  }

  /**
    * The `extern crate` form is matched as a prefix, so code that says `extern crate serde_json`
    * also pulls in `serde`.
    */
  lemma ExternCrateSerdeJsonAddsSerde(code: string)
    requires Contains(code, "extern crate serde_json")
    ensures CratePatterns[1].line in Detected(code) && CratePatterns[2].line in Detected(code)
  {
    assert "extern crate serde_json" == "extern crate serde" + "_json";
    ContainsPrefixOfPattern(code, "extern crate serde", "_json");
    assert "extern crate " + CratePatterns[1].name == "extern crate serde";
    assert UsesCrate(code, CratePatterns[1].name);
    assert "extern crate " + CratePatterns[2].name == "extern crate serde_json";
    assert UsesCrate(code, CratePatterns[2].name);
    DetectedFromIff(code, 0, 1);
    DetectedFromIff(code, 0, 2);
  }

  /** The fixed `[package]` section of the generated manifest. */
  const PackageSection: string := "[package]\nname = \"exercise\"\nversion = \"0.1.0\"\nedition = \"2021\"\n"

  /**
    * `RustRunner::generate_cargo_toml`: the package section alone when nothing was detected,
    * otherwise followed by a `[dependencies]` section that holds every dependency line.
    */
  function CargoToml(deps: seq<string>): (r: string)
    ensures StartsWith(r, PackageSection)
    ensures deps == [] ==> r == PackageSection
    ensures deps != [] ==> Contains(r, "[dependencies]") && forall i :: 0 <= i < |deps| ==> Contains(r, deps[i])
  {
    if deps == [] then PackageSection
    else
      var section := "\n[dependencies]\n" + Join(deps, "\n") + "\n";
      var r := PackageSection + section;
      assert r[..|PackageSection|] == PackageSection;
      ContainsMiddle("\n", "[dependencies]", "\n" + Join(deps, "\n") + "\n");
      assert section == "\n" + "[dependencies]" + ("\n" + Join(deps, "\n") + "\n");
      ContainsInSuffix(PackageSection, section, "[dependencies]");
      forall i | 0 <= i < |deps|
        ensures Contains(r, deps[i])
      {
        JoinContainsEach(deps, "\n", i);
        ContainsInSuffix("\n[dependencies]\n", Join(deps, "\n"), deps[i]);
        ContainsInPrefix("\n[dependencies]\n" + Join(deps, "\n"), "\n", deps[i]);
        ContainsInSuffix(PackageSection, section, deps[i]);
      }
      r
  }

  /**
    * `Path::file_stem`: the file name before its last dot, unless that dot is the first
    * character (a hidden file), in which case the whole name.
    */
  function FileStem(name: string): (r: string)
    ensures |r| <= |name| && r == name[..|r|]
    ensures r != name ==> |r| > 0 && name[|r|] == '.' && forall j :: |r| < j < |name| ==> name[j] != '.'
  {
    match RFind(name, '.')
    case Some(k) => if k > 0 then name[..k] else name
    case None => name
  }

  /**
    * The Cargo project directory: `cargo_exercise_<stem>` next to the exercise file, or in
    * the current directory when the path has no parent; the stem is "exercise" when the
    * path has no file name.
    */
  function ProjectDir(file: Path): (dir: Path)
    ensures |file| > 0 ==> dir == file[..|file| - 1] + ["cargo_exercise_" + FileStem(file[|file| - 1])]
    ensures |file| == 0 ==> dir == [".", "cargo_exercise_exercise"]
  {
    if |file| == 0 then [".", "cargo_exercise_exercise"]
    else file[..|file| - 1] + ["cargo_exercise_" + FileStem(file[|file| - 1])]
  }

  /** The stem of `<stem>.<extension>` is `<stem>` when the extension has no dot and the stem is not empty. */
  lemma StemOfDottedName(stem: string, ext: string)
    requires |stem| > 0 && forall i :: 0 <= i < |ext| ==> ext[i] != '.'
    ensures FileStem(stem + "." + ext) == stem
  {
    var name := stem + "." + ext;
    var k := |stem|;
    assert name[k] == '.';
    assert forall j :: k < j < |name| ==> name[j] == ext[j - k - 1];
    assert name[..k] == stem;
  }

  /** For an exercise file, the project directory sits beside it and is named after its number. */
  lemma ProjectDirOfExerciseFile(tempDir: Path, n: nat)
    ensures ProjectDir(ExercisePath(tempDir, Rust, n))
      == tempDir + [ScratchDirName, "cargo_exercise_" + ("exercise_" + NatToString(n))]
  {
    ExerciseFileStem(n);
    var p := ExercisePath(tempDir, Rust, n);
    assert p[..|p| - 1] == tempDir + [ScratchDirName];
  }

  /** The stem of an exercise file's name is `exercise_<n>`. */
  lemma ExerciseFileStem(n: nat)
    ensures FileStem(ExerciseFileName(Rust, n)) == "exercise_" + NatToString(n)
  {
    var stem := "exercise_" + NatToString(n);
    assert ExerciseFileName(Rust, n) == stem + "." + FileExtension(Rust);
    StemOfDottedName(stem, FileExtension(Rust));
  }

  /** The text a path prints as: its components joined by slashes. */
  function DisplayPath(p: Path): string {
    Join(p, "/")
  }

  /**
    * `RustRunner::execute`: a missing file is an error naming it; otherwise `cargo run` sees
    * the manifest for the detected dependencies and the code unchanged, and a failed run
    * reports its standard error while a successful one yields its standard output.
    */
  function Execute(fs: FileSystem, file: Path, input: Option<string>, cargo: CargoRun): (r: Result<string, string>)
    ensures file !in fs ==> r == Err("Exercise file not found: " + DisplayPath(file))
    ensures file in fs ==>
      var out := cargo(CargoToml(Detected(fs[file])), fs[file], input);
      (r.Ok? <==> out.success)
      && (r.Ok? ==> r.value == out.stdout)
      && (r.Err? ==> r.error == "Compilation or runtime error: " + out.stderr)
  {
    if file !in fs then Err("Exercise file not found: " + DisplayPath(file))
    else
      var code := fs[file];
      var out := cargo(CargoToml(Detected(code)), code, input);
      if !out.success then Err("Compilation or runtime error: " + out.stderr)
      else Ok(out.stdout)
  }
}
