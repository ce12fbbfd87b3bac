/**
  * Exercise files in the scratch directory (src/execution/file_manager.rs). The file
  * system is a map from paths (sequences of components) to file contents.
  */
module FileManager {
  import opened Text
  import opened Languages

  type Path = seq<string>
  type FileSystem = map<Path, string>

  /** The name of the scratch directory created under the system temporary directory. */
  const ScratchDirName: string := "cursed-coddy"

  /** The file name `exercise_<n>.<extension>`. */
  function ExerciseFileName(l: Language, n: nat): (r: string)
    ensures StartsWith(r, "exercise_") && EndsWith(r, "." + FileExtension(l))
  {
    "exercise_" + NatToString(n) + "." + FileExtension(l)
  }

  /** Where the exercise file lives: `<temp>/cursed-coddy/exercise_<n>.<extension>`. */
  function ExercisePath(tempDir: Path, l: Language, n: nat): (p: Path)
    ensures |p| == |tempDir| + 2 && p[..|tempDir|] == tempDir
    ensures p[|tempDir|] == ScratchDirName && p[|tempDir| + 1] == ExerciseFileName(l, n)
  {
    tempDir + [ScratchDirName, ExerciseFileName(l, n)]
  }

  /** Two exercises never share a file: the name determines both the number and the language. */
  lemma FileNamesDistinct(l1: Language, n1: nat, l2: Language, n2: nat)
    requires ExerciseFileName(l1, n1) == ExerciseFileName(l2, n2)
    ensures l1 == l2 && n1 == n2
  {
    FileNameAfterPrefix(l1, n1);
    FileNameAfterPrefix(l2, n2);
    SplitAtSeparator(NatToString(n1), FileExtension(l1), NatToString(n2), FileExtension(l2), '.');
    NatToStringInjective(n1, n2);
    NamesIdentifyLanguage(l1, l2);
  }

  /** After the `exercise_` prefix come the number's digits, a dot and the extension. */
  lemma FileNameAfterPrefix(l: Language, n: nat)
    ensures |ExerciseFileName(l, n)| >= 9
    ensures ExerciseFileName(l, n)[9..] == NatToString(n) + ['.'] + FileExtension(l)
  {
    var d, e := NatToString(n), FileExtension(l);
    assert ExerciseFileName(l, n) == "exercise_" + (d + "." + e);
  }

  /** The comment every template carries where the learner's code goes. */
  const SolutionComment: string := "// Write your solution here"

  /** A skeleton with the solution comment between `before` and `after`. */
  function Skeleton(before: string, after: string): (r: string)
    ensures Contains(r, SolutionComment)
    ensures Contains(before, "main()") ==> Contains(r, "main()")
    ensures EndsWith(after, "}\n") ==> EndsWith(r, "}\n")
  {
    ContainsMiddle(before, SolutionComment, after);
    assert before + SolutionComment + after == before + (SolutionComment + after);
    assert Contains(before, "main()") ==> Contains(before + (SolutionComment + after), "main()") by {
      if Contains(before, "main()") {
        ContainsInPrefix(before, SolutionComment + after, "main()");
      }
    }
    before + SolutionComment + after
  }

  /**
    * `FileManager::get_template`: a starting skeleton with the solution comment in it;
    * the C++ and Rust skeletons define `main` and end with its closing brace.
    */
  function GetTemplate(l: Language): (r: string)
    ensures Contains(r, SolutionComment)
    ensures l != JavaScript ==> Contains(r, "main()") && EndsWith(r, "}\n")
  {
    match l
    case JavaScript => Skeleton("", "\n\n")
    case Cpp =>
      var before := "#include <iostream>\nusing namespace std;\n\nint main() {\n    ";
      assert MatchAt(before, "main()", 46) by { assert before[46..52] == "main()"; }
      Skeleton(before, "\n    return 0;\n}\n")
    case Rust =>
      var before := "fn main() {\n    ";
      assert MatchAt(before, "main()", 3) by { assert before[3..9] == "main()"; }
      Skeleton(before, "\n}\n")
  }

  /**
    * `FileManager::create_exercise_file`: writes the template to the exercise path,
    * replacing whatever was there, and returns the path; no other file changes.
    */
  function CreateExerciseFile(fs: FileSystem, tempDir: Path, l: Language, n: nat): (r: (Path, FileSystem))
    ensures r.0 == ExercisePath(tempDir, l, n)
    ensures r.0 in r.1 && r.1[r.0] == GetTemplate(l)
    ensures r.1.Keys == fs.Keys + {r.0}
    ensures forall p :: p in fs && p != r.0 ==> r.1[p] == fs[p]
  {
    var path := ExercisePath(tempDir, l, n);
    (path, fs[path := GetTemplate(l)])
  }
}
