# Cursed-Coddy core, modelled in Dafny

Cursed-Coddy is a command-line programming tutor. It asks a local language model for a lesson as
JSON, repairs or replaces a reply it cannot use, shows the lesson, runs the learner's solution
against test cases, and keeps a progress file. This project models the deterministic core of that
tool and proves properties about it:

- JSON extraction and repair of the model's reply. The JSON parser is a parameter: `JsonCheck`
  says whether a text parses, `Parser` gives the parsed value.
- Decoding of the lesson content, in object or positional form, with its field defaults, and the
  encode/decode round trip.
- The fallback content mined from a reply that does not decode, including the topic tables and the
  test-case generator.
- The post-processing floors of a generated lesson.
- The lesson screen's text wrapping, exercise backfill, input predicates and test session.
- Output comparison and the dispatch of the language runners. The runners are parameters.
- The Cargo manifest and project directory that the Rust runner derives.
- Exercise file names and templates.
- The built-in lessons and their round-robin selection.
- The learning journey loop and the progress tracker's transitions.
- The enum tables, the curricula and the box-drawing borders.

There is one module per source file, plus two of its own. `Wrappers` holds Option and Result.
`Text` holds the string operations the source takes from Rust's standard library: `trim`, `find`,
`rfind`, `contains`, `replace`, `repeat`, `split_whitespace`, `join`, ASCII `to_lowercase` and
integer formatting.

Where the code changes state step by step, the model is imperative:

- the scanners in `JsonExtraction`;
- the mining loops in `Fallback`;
- the post-processing in `Generation`;
- `WrapText`, `PrepareExercises` and `RunTests` in `LessonManager`;
- `DetectDependencies` in `RustRunner`;
- the class `ProgressTracker.Tracker`;
- the journey loop in `Journey`.

Each of these methods is proved equal to a specification function. The lemmas about those
functions carry the properties.

The journey and the round-robin lemmas take the lesson table as a parameter. The program always
passes the four built-in lessons (`HumanLessons.AllLessons`, from `get_all_lessons`), and
`HumanLessons.BuiltInLanguages` states that this table has the order the round-robin lemmas assume.

## Model

| member | source | states |
|---|---|---|
| Languages.FileExtension | src/config/languages.rs:11-17 | the extension is at least two characters long and contains no dot |
| Languages.NamesIdentifyLanguage | src/config/languages.rs:11-32 | `Languages.FileExtension` and `Languages.DisplayName` are pairwise distinct, so each identifies its language; `Languages.Display` writes the display name |
| LessonTypes.ConceptCount | src/config/lesson_types.rs:19-25 | the concept count is 1, 2 or 3 for Short, Medium or Long |
| LessonTypes.ExerciseCount | src/config/lesson_types.rs:27-33 | the exercise count is 1, 3 or 5, always at least 1 |
| LessonTypes.CountsIncrease | src/config/lesson_types.rs:19-33 | both counts strictly increase from Short to Medium to Long |
| LessonTypes.NamesIdentifyLessonType | src/config/lesson_types.rs:11-40 | the names of `LessonTypes.DisplayName` are pairwise distinct, and `LessonTypes.Display` writes the display name |
| Difficulties.DisplayName | src/config/difficulties.rs:11-17 | every difficulty has a non-empty name; there is no error path |
| Difficulties.NamesIdentifyDifficulty | src/config/difficulties.rs:11-24 | the names of `Difficulties.DisplayName` are pairwise distinct, so the tracker's per-difficulty counters never merge two difficulties; `Difficulties.Display` writes the name |
| Curriculum.GetForLanguage | src/config/curriculum.rs:20-26 | the curriculum returned is the one for the requested language |
| Curriculum.TotalStages | src/config/curriculum.rs:272-274 | the total is the number of stages |
| Curriculum.GetStage | src/config/curriculum.rs:268-270 | a stage is returned exactly when the index is below the total, and it is the stage at that index |
| Curriculum.BuiltInCurriculumShape | src/config/curriculum.rs:28-266 | every built-in curriculum has 6 stages of 4 topics; difficulty never decreases; it starts at Beginner and ends at Advanced |
| Borders.Top | src/cli/colors.rs:85-87 | the top border is `╔`, then `═` fill, then `╗`; its length is the width, or 2 when the width is below 2 |
| Borders.Bottom | src/cli/colors.rs:89-91 | the bottom border mirrors the top with `╚`, `═` and `╝`, and has the same length |
| Borders.Separator | src/cli/colors.rs:93-95 | the separator is exactly `width` copies of `─` |
| Borders.BoxLine | src/cli/colors.rs:97-101 | the line is `║ `, the whole content, padding, then ` ║`; it has exactly `width` characters when the content fits, and the content is never cut |
| Borders.BoxLineLeft | src/cli/colors.rs:103-107 | the length is `width` when the content plus 4 fits, else the content length plus 4; the content is kept whole and padded with spaces |
| FileManager.ExerciseFileName | src/execution/file_manager.rs:15 | the name starts with `exercise_` and ends with `.` plus the language's extension |
| FileManager.ExercisePath | src/execution/file_manager.rs:11-16 | the path is the temporary directory, then `cursed-coddy`, then the file name |
| FileManager.FileNamesDistinct | src/execution/file_manager.rs:15 | two equal file names have the same language and the same exercise number |
| FileManager.GetTemplate | src/execution/file_manager.rs:26-32 | every template holds the solution comment; the C++ and Rust templates define `main()` and end with a closing brace |
| FileManager.CreateExerciseFile | src/execution/file_manager.rs:7-24 | the file system gains exactly the exercise path, holding the template, and every other file is unchanged |
| Executor.Execute | src/execution/executor.rs:14-29 | JavaScript, C++ and Rust go to their own runner; the runner's output string is passed through as the output, and its error unchanged |
| Executor.CompareOutputIsEquivalence | src/execution/executor.rs:31-33 | `Executor.CompareOutput` (equality after `Text.Trim` of both sides) is reflexive, symmetric and transitive |
| Executor.CompareOutputIgnoresSurroundingWhitespace | src/execution/executor.rs:31-33 | whitespace around the actual output never changes the verdict of `CompareOutput`, e.g. `foo\n` against `foo` |
| Executor.CompareOutputBlank | src/execution/executor.rs:31-33 | a blank output matches exactly the blank expectations, because `Text.Trim` of a blank text is empty |
| RustRunner.DetectDependencies | src/execution/rust_runner.rs:91-113 | the loop over the six-crate table returns the table's specification `Detected` |
| RustRunner.DetectedFrom | src/execution/rust_runner.rs:104-110 | the scan from table row `i` yields at most one line per remaining row |
| RustRunner.DetectedFromIff | src/execution/rust_runner.rs:104-110 | a row's dependency line is included iff the code has `use c::`, `use c;` or `extern crate c` for that crate |
| RustRunner.DetectedFromOnlyLater | src/execution/rust_runner.rs:104-110 | a scan from row `i` never includes an earlier row's line |
| RustRunner.DetectedFromTable | src/execution/rust_runner.rs:104-110 | a scan from row `i` returns only lines of row `i` or later |
| RustRunner.DetectedFromDistinct | src/execution/rust_runner.rs:104-110 | a scan from row `i` never returns the same line twice |
| RustRunner.DetectedIsExact | src/execution/rust_runner.rs:95-110 | the result is a duplicate-free subset of the table, and each row is in it iff its crate is used |
| RustRunner.ExternCrateSerdeJsonAddsSerde | src/execution/rust_runner.rs:97-107 | `extern crate serde_json` also adds `serde`, because the plain substring test matches |
| RustRunner.CargoToml | src/execution/rust_runner.rs:115-131 | the manifest starts with the fixed `[package]` header; with no dependencies it is only that header; otherwise it has a `[dependencies]` section holding every line |
| RustRunner.FileStem | src/execution/rust_runner.rs:24 | the stem is the name up to its last dot that is not the first character, or the whole name |
| RustRunner.ProjectDir | src/execution/rust_runner.rs:21-26 | the project directory is the file's parent joined with `cargo_exercise_` plus the stem; with no parent it is `.` and the stem `exercise` |
| RustRunner.StemOfDottedName | src/execution/rust_runner.rs:24 | the stem of `stem.ext` is `stem` when `ext` has no dot |
| RustRunner.ProjectDirOfExerciseFile | src/execution/rust_runner.rs:21-26 | the project directory of exercise file `n` is `cargo_exercise_exercise_n` beside it |
| RustRunner.Execute | src/execution/rust_runner.rs:9-89 | a missing file is an error naming it, before Cargo runs; otherwise Cargo gets the derived manifest; success returns stdout verbatim, failure returns stderr after the error prefix |
| Formatter.Field | src/ollama/formatter.rs:3-38 | a key that appears twice is an error, an absent key is `None`, and a present key gives its value |
| Formatter.DecodeString | src/ollama/formatter.rs:5-33 | only a JSON string decodes as a string, and it decodes to its own text |
| Formatter.DecodeItems | src/ollama/formatter.rs:13-37 | an array decodes iff every item does, and the result lists the items' values in order |
| Formatter.FromJson | src/ollama/formatter.rs:40-43 | text that does not parse is a syntax error; otherwise the result is `DecodeContent` of the parsed value, with no repair; the value may be an object or a positional array |
| Formatter.EncodeStrings | src/ollama/formatter.rs:3-38 | a string list encodes as an array of the same strings in order |
| Formatter.FieldAt | src/ollama/formatter.rs:3-38 | a key present exactly once yields its value |
| Formatter.FieldAbsent | src/ollama/formatter.rs:3-38 | a key that is absent yields `None` |
| Formatter.DecodeItemsRoundTrip | src/ollama/formatter.rs:13-37 | items that each decode to the matching element decode to the whole list |
| Formatter.StringsRoundTrip | src/ollama/formatter.rs:13-35 | decoding an encoded string list gives it back |
| Formatter.CodeExampleRoundTrip | src/ollama/formatter.rs:3-7 | decoding an encoded code example gives it back |
| Formatter.TestCaseRoundTrip | src/ollama/formatter.rs:19-23 | decoding an encoded test case gives it back |
| Formatter.ExerciseRoundTrip | src/ollama/formatter.rs:9-17 | decoding an encoded exercise gives it back |
| Formatter.ExerciseTextFieldsRoundTrip | src/ollama/formatter.rs:11-13 | the title, description and hints of an encoded exercise decode back |
| Formatter.ExerciseInputRoundTrip | src/ollama/formatter.rs:14 | the optional example input decodes back, `None` included |
| Formatter.ExerciseOutputRoundTrip | src/ollama/formatter.rs:15 | the optional example output decodes back, `None` included |
| Formatter.ExerciseTestCasesRoundTrip | src/ollama/formatter.rs:16 | the test cases of an encoded exercise decode back |
| Formatter.ExerciseFromFields | src/ollama/formatter.rs:9-17 | an object whose six fields decode to an exercise's fields decodes to that exercise |
| Formatter.ContentRoundTrip | src/ollama/formatter.rs:25-38 | `Formatter.DecodeContent` of encoded lesson content gives it back |
| Formatter.ContentTextFieldsRoundTrip | src/ollama/formatter.rs:27-35 | the concept and the syntax guide decode back |
| Formatter.ContentListFieldsRoundTrip | src/ollama/formatter.rs:27-35 | the steps and the common patterns decode back |
| Formatter.ContentExamplesRoundTrip | src/ollama/formatter.rs:31 | the code examples decode back |
| Formatter.ContentExercisesRoundTrip | src/ollama/formatter.rs:37 | the exercises decode back |
| Formatter.ContentFromFields | src/ollama/formatter.rs:25-38 | an object whose six fields decode to the content's fields decodes to that content |
| Formatter.FromJsonRoundTrip | src/ollama/formatter.rs:40-43 | text that parses to the encoding of some content yields that content |
| Formatter.OnlyConceptRequired | src/ollama/formatter.rs:26-38 | an object holding only `concept` decodes with empty lists and an empty guide |
| Formatter.MissingConceptFails | src/ollama/formatter.rs:27 | an object without `concept` fails with a missing-field error |
| Formatter.RepeatedConceptFails | src/ollama/formatter.rs:27 | a repeated `concept` key fails |
| Formatter.UnknownKeysIgnored | src/ollama/formatter.rs:25-38 | adding a key the content does not declare changes nothing |
| Formatter.FieldIgnoresOtherKeys | src/ollama/formatter.rs:25-38 | adding a different key does not change a field's lookup |
| Formatter.NullExamplesDecodeAsNone | src/ollama/formatter.rs:14-15 | a `null` or absent example input or output decodes as `None` |
| Formatter.NullExampleOptionals | src/ollama/formatter.rs:14-15 | a `null` example input and a missing example output each decode as `None` |
| Formatter.MissingTitleFails | src/ollama/formatter.rs:11 | an exercise without `title` fails with a missing-field error |
| Formatter.PositionalCodeExample | src/ollama/formatter.rs:3-7 | `DecodeCodeExample` of an array succeeds iff it has exactly two strings, giving the code and the explanation in that order |
| Formatter.PositionalTestCase | src/ollama/formatter.rs:19-23 | `DecodeTestCase` of an array succeeds iff it has exactly two strings, giving the input and the output in that order |
| Formatter.PositionalContentShape | src/ollama/formatter.rs:25-38 | a positional `DecodeContent` that succeeds had 1 to 6 elements, the first being the concept; an empty array fails for want of it |
| Formatter.PositionalConceptOnly | src/ollama/formatter.rs:25-38 | an array holding only the concept decodes with every defaulted field empty |
| Formatter.PositionalExerciseComplete | src/ollama/formatter.rs:9-17 | a positional `DecodeExercise` that succeeds had all six elements; the example input and output are `None` exactly when given as null |
| JsonExtraction.After | src/ollama/generator.rs:613-667 | after `n` characters the last valid position lies within them |
| JsonExtraction.StepIgnoresBracketsInString | src/ollama/generator.rs:613-667 | inside a string, no character except a quote changes the brace or bracket depth, and the scan stays inside the string |
| JsonExtraction.StepSkipsEscaped | src/ollama/generator.rs:613-667 | a backslash and the character after it leave the scan state unchanged, inside or outside a string |
| JsonExtraction.FirstCloseFrom | src/ollama/generator.rs:550-593 | the direct scan's stop is the first position where the brace depth returns to 0, or none |
| JsonExtraction.FirstParsedCloseFrom | src/ollama/generator.rs:613-667 | the incomplete scan's stop is a closing position whose slice parses |
| JsonExtraction.LastUnescapedQuoteBelow | src/ollama/generator.rs:679-703 | the result is the last `"` not preceded by a backslash, or none exists |
| JsonExtraction.CutOpenString | src/ollama/generator.rs:679-703 | an open string is cut just after the last unescaped quote; with none, at the last comma with `}` appended; with neither, kept |
| JsonExtraction.TrimEndCommas | src/ollama/generator.rs:711-734 | the result is the text less only its trailing commas |
| JsonExtraction.MinimalShape | src/ollama/generator.rs:748-761 | corrected minimal object `Minimal`: whenever it exists it is `{` + the text from a `"concept": ` key up to a later quote + the empty fields |
| JsonExtraction.MinimalFound | src/ollama/generator.rs:748-761 | corrected minimal object once the key and the next two quotes are found: the member between them wrapped with the empty fields |
| JsonExtraction.ScanCandidate | src/ollama/generator.rs:613-667 | the loop returns the trimmed slice up to the first closing position that parses; otherwise no result and the state after the whole text |
| JsonExtraction.CloseOpenString | src/ollama/generator.rs:679-703 | the loop computes `CutOpenString` |
| JsonExtraction.PushRepeated | src/ollama/generator.rs:706-739 | the loop appends exactly `count` closers, none when the count is not positive |
| JsonExtraction.InjectMissingKeys | src/ollama/generator.rs:711-734 | the key injection computes `InjectKeys` |
| JsonExtraction.RepairCandidate | src/ollama/generator.rs:676-739 | the repair computes `Repaired`: the cut text (`CutText`), the `]` run, then for an open object the injected keys and the `}` run |
| JsonExtraction.TryExtractIncompleteJson | src/ollama/generator.rs:602-766 | the method computes `TryExtractSpec`: scan, repair only when a depth is positive or a string is open, then `RepairAttempt` (the repaired text if it parses, else the corrected minimal object if it parses) |
| JsonExtraction.ScanObjectEnd | src/ollama/generator.rs:550-593 | the direct scan stops where `FirstCloseFrom` says |
| JsonExtraction.TryFence | src/ollama/generator.rs:510-547 | a fence candidate is its trimmed body when it parses, else the repaired text |
| JsonExtraction.TryDirect | src/ollama/generator.rs:550-593 | the direct candidate runs from the first `{` to the first close, else the repaired text |
| JsonExtraction.ExtractJson | src/ollama/generator.rs:508-600 | computes `ExtractJsonSpec`: tries the `json` fence, then the bare fence, then the first `{`; returns the first success, and an error only when all three fail |
| JsonExtraction.DepthPositiveUntilClose | src/ollama/generator.rs:556-575 | from an opening `{`, the brace depth stays at least 1 until the first close |
| JsonExtraction.DirectSpanEndsAtClose | src/ollama/generator.rs:556-575 | the direct span ends just after the `}` that brings the depth back to 0, and the depth stays positive before it |
| JsonExtraction.TryExtractParsed | src/ollama/generator.rs:638-758 | every result of the incomplete extraction passed the parse check |
| JsonExtraction.FencedParsed | src/ollama/generator.rs:515-535 | every fence result passed the parse check |
| JsonExtraction.DirectParsed | src/ollama/generator.rs:585-586 | every direct result passed the parse check |
| JsonExtraction.ExtractJsonParsed | src/ollama/generator.rs:508-600 | every `Ok` of the extraction passed the parse check |
| JsonExtraction.RepairedEndsWithClosers | src/ollama/generator.rs:737-739 | with open braces, the repaired text ends with exactly that many `}` |
| JsonExtraction.RepairedClosesArrays | src/ollama/generator.rs:676-708 | with no open braces, the repaired text is the kept slice, with an open string cut, plus exactly the open-bracket count of `]` |
| JsonExtraction.RepairedObjectLayout | src/ollama/generator.rs:676-739 | for an open object: with open arrays the repaired text starts with the cut text followed directly by the `]` run; without, with the cut text less its trailing commas; the injected keys follow, and the `}` run ends the text after the `]` run |
| JsonExtraction.InjectKeysExtends | src/ollama/generator.rs:711-734 | key injection only appends to the text with its trailing commas dropped |
| JsonExtraction.ContainsAfterTrimCommas | src/ollama/generator.rs:711-734 | trimming trailing commas keeps a quoted key present |
| JsonExtraction.AddEntryKeeps | src/ollama/generator.rs:711-734 | adding an entry keeps every key already present |
| JsonExtraction.AddEntryAdds | src/ollama/generator.rs:711-734 | adding a needed entry makes its key present |
| JsonExtraction.InjectKeysComplete | src/ollama/generator.rs:711-734 | after injection, the `syntax_guide`, `common_patterns` and `exercises` keys are all present |
| JsonExtraction.InjectKeysNothingMissing | src/ollama/generator.rs:711-734 | when all three keys are present, injection only trims trailing commas |
| JsonExtraction.RepairedObjectComplete | src/ollama/generator.rs:711-739 | a repaired object with open braces has all three keys |
| JsonExtraction.MinimalAsWrittenIgnoresConcept | src/ollama/generator.rs:748-761 | as written, `MinimalAsWritten` exists iff the text has the concept key, and it is always `{"concept", …}` |
| JsonExtraction.MinimalKeepsConcept | src/ollama/generator.rs:748-761 | corrected: the minimal object holds the concept's quoted value |
| JsonExtraction.MinimalAsWrittenLosesValue | src/ollama/generator.rs:748-761 | as written, the value is lost, and the result differs from the corrected one |
| JsonExtraction.RepairAttemptAsWrittenAddsNothing | src/ollama/generator.rs:742-760 | as written (`RepairAttemptAsWritten`), when `{"concept", …}` does not parse the last step returns the repaired text if it parses and otherwise nothing |
| JsonExtraction.FenceBodyOfClosedFence | src/ollama/generator.rs:510-527 | a closed `json` fence yields its trimmed body |
| JsonExtraction.FencedJsonReturned | src/ollama/generator.rs:508-527 | a reply with a closed `json` fence whose body parses extracts exactly that body |
| Fallback.GenerateTestCases | src/ollama/generator.rs:1160-1204 | always three cases; when the description asks for input (`AsksForInput`) the inputs are 5, 10 and 42 and the first two outputs are the example output with `42` and then `test` replaced by that input; otherwise every case has input "" and the example output; the third output is always the example output |
| Fallback.GeneratedOutputsFollowInput | src/ollama/generator.rs:1170-1185 | when input is asked for and the example output has no `test`, every output is the example output with `42` replaced by that case's input (the 42 case replaces `42` by itself) |
| Fallback.GeneratedOutputsMatchExample | src/ollama/generator.rs:1175-1200 | when the example output has no `42` and no `test`, all three outputs equal it |
| Fallback.GeneratedInputsDistinctIffAsked | src/ollama/generator.rs:1160-1204 | the three inputs are pairwise distinct iff the description asks for input |
| Fallback.TopicContent | src/ollama/generator.rs:958-1075 | the guide is empty iff there are no examples, and otherwise there are exactly two |
| Fallback.TopicContentByKind | src/ollama/generator.rs:958-1075 | the first matching topic kind decides the content; only the fall-through kind gives none |
| Fallback.ExerciseParts | src/ollama/generator.rs:1077-1158 | the fallback exercise always has at least two hints |
| Fallback.VariableExerciseParts | src/ollama/generator.rs:1079-1106 | the variable exercise has exactly two hints in every language |
| Fallback.RandomExerciseParts | src/ollama/generator.rs:1107-1135 | the random-number exercise has at least two hints |
| Fallback.FallbackExercise | src/ollama/generator.rs:1077-1158 | titled `Practice: {topic}`, example input `""`, an example output, at least two hints, and the three generated test cases |
| Fallback.FallbackExerciseByKind | src/ollama/generator.rs:1077-1158 | two topics of the same matched kind give the same exercise apart from the title |
| Fallback.TablesDisagreeOnRandomVariables | src/ollama/generator.rs:962-1107 | the guide table matches "random" first and the exercise table matches "variable" first, so `random variables` gets a random guide and a variable exercise |
| Fallback.MinedConcept | src/ollama/generator.rs:779-791 | a mined concept is one line longer than 20 and shorter than 500 characters |
| Fallback.MinedStep | src/ollama/generator.rs:798-808 | a mined step starts with `Step ` |
| Fallback.StepLine | src/ollama/generator.rs:805 | a recorded step starts with `Step ` |
| Fallback.MinedStepsBefore | src/ollama/generator.rs:798-809 | the steps mined from the patterns below `n` are at most `n - 1`, each starting with `Step ` |
| Fallback.MinedSteps | src/ollama/generator.rs:793-810 | at most six steps are mined, each starting with `Step ` |
| Fallback.DefaultStepsFor | src/ollama/generator.rs:835-841 | the default steps are exactly three |
| Fallback.MinedBlocksAt | src/ollama/generator.rs:812-832 | from a fence marker on, block mining keeps the blocks found so far and never holds more than two |
| Fallback.MinedBlocks | src/ollama/generator.rs:812-832 | at most two code blocks are mined from a reply |
| Fallback.MinedBlocksAtMarker | src/ollama/generator.rs:814-830 | one pass at a marker: a rejected block moves on to the next marker; an accepted one is kept, and the second accepted one ends the search |
| Fallback.FallbackGuide | src/ollama/generator.rs:873-881 | the syntax guide is never empty |
| Fallback.FallbackFromResponseShape | src/ollama/generator.rs:768-955 | `Fallback.FallbackFromResponse` has exactly 2 examples; 1 to 6 steps, the 3 defaults when none were mined; a non-empty guide; no patterns; one `Practice: {topic}` exercise with example input `""` and 3 test cases; the concept is the mined one when there is one |
| Fallback.MineSteps | src/ollama/generator.rs:793-810 | the step loop computes `MinedSteps`: at most six steps, each starting with `Step ` |
| Fallback.MineCodeBlocks | src/ollama/generator.rs:812-832 | the fence loop computes `MinedBlocks`: at most two blocks, and the search ends at the second accepted one |
| Fallback.MineConcept | src/ollama/generator.rs:775-791 | the concept is the mined one, else the default sentence |
| Fallback.PadExamples | src/ollama/generator.rs:846-871 | the padding computes `PaddedExamples` |
| Fallback.CreateFallbackFromResponse | src/ollama/generator.rs:768-955 | the method computes `FallbackFromResponse` |
| Generation.AcquiredContentCases | src/ollama/generator.rs:389-464 | `Generation.AcquiredContent` is the decoded JSON when extraction gave text that decodes, otherwise the fallback; any text extracted passed the parse check |
| Generation.PadToTwo | src/ollama/generator.rs:478-485 | examples are only appended, never removed, up to at least two |
| Generation.WithTests | src/ollama/generator.rs:495-502 | after filling, an exercise has test cases |
| Generation.ExercisesFloor | src/ollama/generator.rs:487-503 | existing exercises are kept in order, each with its test cases filled |
| Generation.FlooredMeetsFloors | src/ollama/generator.rs:466-503 | after post-processing (`Generation.Floored`) there are at least 2 examples and 1 exercise, and every exercise has test cases |
| Generation.FlooredKeepsContent | src/ollama/generator.rs:466-503 | nothing is removed: the text fields stay, existing examples stay as a prefix, topic examples replace the list only when it was empty, exercises keep their fields, and existing test cases stay |
| Generation.FlooredIdempotent | src/ollama/generator.rs:466-503 | post-processing twice is the same as once |
| Generation.EnsureFloors | src/ollama/generator.rs:466-503 | the in-place post-processing computes `Floored` |
| Generation.RaiseExamples | src/ollama/generator.rs:466-485 | the example loop computes `ExamplesFloor` |
| Generation.FillTestCases | src/ollama/generator.rs:495-502 | the exercise loop fills every exercise's test cases and keeps the count |
| Generation.GenerateFromReply | src/ollama/generator.rs:389-503 | the content is the acquired content after post-processing, so it has at least 2 examples and 1 exercise |
| LessonManager.WrapGroups | src/lessons/lesson_manager.rs:17-43 | there are no lines iff there are no words |
| LessonManager.Lines | src/lessons/lesson_manager.rs:18-35 | each group becomes one line of indent plus its words separated by spaces |
| LessonManager.WrapKeepsWords | src/lessons/lesson_manager.rs:17-43 | the lines hold the input's words in the same order, none lost |
| LessonManager.WrapGroupsNonEmpty | src/lessons/lesson_manager.rs:17-43 | no line is empty |
| LessonManager.WrapLinesFit | src/lessons/lesson_manager.rs:28-31 | a line of two or more words never exceeds the width, indent included |
| LessonManager.WrapBlank | src/lessons/lesson_manager.rs:17-43 | whitespace-only text wraps to `""` |
| LessonManager.WrapStep | src/lessons/lesson_manager.rs:22-36 | one word starts the first line, joins the current line when it fits, or ends the current line with `\n` and starts a new one |
| LessonManager.WrapDone | src/lessons/lesson_manager.rs:38-42 | the finished lines plus the current line are the lines joined by `\n`, with no trailing newline |
| LessonManager.WrapText | src/lessons/lesson_manager.rs:17-43 | the loop's result is the specification `Wrapped` |
| LessonManager.PlaceholderExercise | src/lessons/lesson_manager.rs:189-206 | the placeholder is titled `Practice: {topic}` and has no test cases |
| LessonManager.Prepared | src/lessons/lesson_manager.rs:189-229 | one exercise when there were none, otherwise as many as before |
| LessonManager.BackfilledSpec | src/lessons/lesson_manager.rs:211-228 | `LessonManager.Backfilled` changes only the examples; an unset output takes the first test's output when there is one; an unset input becomes the first test input when it is non-blank, else `""`; set values stay |
| LessonManager.BackfillIdempotent | src/lessons/lesson_manager.rs:211-228 | backfilling twice is the same as once |
| LessonManager.PreparedSpec | src/lessons/lesson_manager.rs:189-229 | no exercises gives the backfilled placeholder; otherwise each exercise is backfilled in place; afterwards every exercise has an example input |
| LessonManager.PrepareExercises | src/lessons/lesson_manager.rs:189-229 | the in-place preparation computes `Prepared` |
| LessonManager.DifferentInputsExpectInput | src/lessons/lesson_manager.rs:325-343 | an exercise with different inputs (`HasDifferentInputs`) expects input (`ExpectsInput`) |
| LessonManager.BackfilledKeepsExpectation | src/lessons/lesson_manager.rs:211-228 | backfill keeps an exercise expecting input and does not change whether its inputs differ |
| LessonManager.BackfillKeepsExpectsOutput | src/lessons/lesson_manager.rs:330-332 | backfill never changes `LessonManager.ExpectsOutput` (`expects_output`), since a filled-in example output is the first test case's output |
| LessonManager.GeneratedCasesDifferIffAsked | src/lessons/lesson_manager.rs:336-343 | for generated test cases, the inputs differ iff the description asks for input |
| LessonManager.RunCases | src/lessons/lesson_manager.rs:693-730 | there is at most one error per case |
| LessonManager.RunCasesSpec | src/lessons/lesson_manager.rs:693-730 | `LessonManager.TestSession`: all pass iff every case runs `Ok` with matching output; there are no errors iff every case runs `Ok` |
| LessonManager.SessionWithoutCases | src/lessons/lesson_manager.rs:674-691 | with no test cases, the attempt passes iff the single run without input is `Ok` |
| LessonManager.RunTests | src/lessons/lesson_manager.rs:670-730 | the loop computes the test session; with no cases it runs once without input, otherwise once per case, in order, with that case's input |
| HumanLessons.Positions | src/lessons/human_lessons.rs:52-55 | the indices of the lessons in a language, increasing and complete |
| HumanLessons.IndexOf | src/lessons/human_lessons.rs:66-67 | the first position holding the index, or none when it is absent |
| HumanLessons.NextLessonIn | src/lessons/human_lessons.rs:44-83 | a returned index names a lesson in the requested language, and the lesson is the one at that index |
| HumanLessons.PositionsStartAtFirst | src/lessons/human_lessons.rs:52-55 | the first position is the lowest-index lesson of the language |
| HumanLessons.NextLessonNoneIff | src/lessons/human_lessons.rs:52-60 | no lesson is returned iff no lesson has the language |
| HumanLessons.NextLessonFromStart | src/lessons/human_lessons.rs:74-79 | with no last index, or one outside the language, the first lesson of the language is returned |
| HumanLessons.NextLessonAfter | src/lessons/human_lessons.rs:63-73 | after a lesson of the language comes the next one in index order; after the last comes the first |
| HumanLessons.BuiltInLessonsShape | src/lessons/human_lessons.rs:15-331 | four built-in lessons, each with two examples; each exercise has one test case whose output is its example output |
| HumanLessons.BuiltInLanguages | src/lessons/human_lessons.rs:15-42 | two Rust lessons, then one JavaScript lesson, then one C++ lesson |
| HumanLessons.PositionsGap | src/lessons/human_lessons.rs:52-55 | no lesson of the language lies strictly between two consecutive positions |
| HumanLessons.PositionsTail | src/lessons/human_lessons.rs:52-55 | no lesson of the language lies after the last position |
| HumanLessons.RoundRobinOn | src/lessons/human_lessons.rs:44-83 | on any table ordered Rust, Rust, JavaScript, C++, the Rust lessons alternate 0, 1, 0 |
| HumanLessons.SingleLessonsOn | src/lessons/human_lessons.rs:44-83 | on any such table, JavaScript always gets lesson 2 and C++ lesson 3 |
| HumanLessons.RustRoundRobin | src/lessons/human_lessons.rs:44-83 | `HumanLessons.GetNextLesson` alternates the Rust lessons 0, 1, 0 |
| HumanLessons.SingleLessonLanguages | src/lessons/human_lessons.rs:44-83 | `GetNextLesson` always gives JavaScript and C++ their single lesson |
| Journey.NeedsNewJourneyIff | src/lessons/journey.rs:26-27 | `Journey.NeedsNewJourney` holds iff there is no journey or its language differs |
| Journey.LastIndexSpec | src/lessons/journey.rs:48-52 | `Journey.LastIndex` is none iff the stage is 0 and no topic is completed; otherwise the current stage |
| Journey.StartBeginsAtFirstLesson | src/lessons/journey.rs:25-55 | after the start the journey is in the requested language; a new journey begins at the language's first lesson |
| Journey.LessonTitleSpec | src/lessons/journey.rs:65-66 | `Journey.LessonTitle` is `Lesson {i+1}: ` plus the concept up to its first `.` |
| Journey.LessonTopicSpec | src/lessons/journey.rs:74 | `Journey.LessonTopic` is `Human-made lesson ` plus the lesson's number counted from one, so different lessons have different topics |
| Journey.ExercisesCompletedKeep | src/lessons/lesson_manager.rs:241-245 | completing exercises touches only the lesson in progress, and keeps the invariant |
| Journey.LessonRunSpec | src/lessons/lesson_manager.rs:231-248 | `Journey.LessonRun`: a stopped lesson records nothing; a finished one appends one record with its language and topic; the journey is unchanged; the invariant holds |
| Journey.ExercisesCurrent | src/lessons/lesson_manager.rs:241-245 | the lesson in progress keeps its topic and language while exercises complete |
| Journey.ExtendsTransitive | src/lessons/journey.rs:39-108 | journey progress composes: the records and titles appended accumulate, and their bounds add up |
| Journey.JourneyStepSpec | src/lessons/journey.rs:55-93 | a stopped lesson adds nothing; a finished lesson adds exactly one record, in the language and under `LessonTopic` of its index, its title is then among the journey's titles and the stage is its index; the invariant holds |
| Journey.JourneyLoopSpec | src/lessons/journey.rs:39-108 | `Journey.JourneyLoop` over a run of attempts adds at most one record and at most one title per finished attempt, all in the language; earlier records and titles stay; the invariant holds |
| Journey.JourneyRunSpec | src/lessons/journey.rs:22-110 | `Journey.JourneyRun`, the whole journey, only appends records in the language, at most one per finished attempt, and at most one title per finished attempt; the invariant holds |
| Journey.StoppedLessonNotRecorded | src/lessons/journey.rs:84-93 | when a lesson is not finished, nothing is recorded in the journey or the lesson list |
| Journey.JourneyLoopUnfold | src/lessons/journey.rs:39-108 | one pass: a stopped lesson ends the loop; a finished one is recorded, then the loop continues only when the learner goes on |
| Journey.RunLesson | src/lessons/lesson_manager.rs:231-248 | the tracker calls of a lesson give `LessonRun`, and the lesson reports finished iff it was |
| Journey.JourneyPass | src/lessons/journey.rs:39-108 | one pass of the loop, against the journey specification |
| Journey.StartOrContinueJourney | src/lessons/journey.rs:22-110 | the tracker ends in `JourneyRun` of its old state |
| ProgressTracker.Load | src/progress/tracker.rs:82-96 | a missing or blank file gives the default; otherwise the decoded progress, or the corrupt-file error |
| ProgressTracker.MapSumRemove | src/progress/tracker.rs:144-155 | a counter map's sum splits off one key |
| ProgressTracker.TallySum | src/progress/tracker.rs:144-155 | one increment raises the counters' sum by exactly 1 |
| ProgressTracker.CountsSum | src/progress/tracker.rs:144-155 | the by-language and by-difficulty counters of a record list each sum to its length |
| ProgressTracker.CountsPerKey | src/progress/tracker.rs:144-155 | each counter is the number of records with that language or difficulty |
| ProgressTracker.DefaultValid | src/progress/tracker.rs:50-63 | the default progress satisfies the invariant `ProgressTracker.Valid` and is what a missing file loads |
| ProgressTracker.ValidCountersAddUp | src/progress/tracker.rs:144-155 | under the invariant both counter maps sum to the total |
| ProgressTracker.LessonStartedSpec | src/progress/tracker.rs:114-123 | `ProgressTracker.LessonStarted`: the lesson in progress starts at exercise 0 with the given total; all else is unchanged; the invariant holds |
| ProgressTracker.ExerciseCompletedSpec | src/progress/tracker.rs:128-130 | `ProgressTracker.ExerciseCompleted`: with a lesson in progress its exercise count rises by exactly 1 and nothing else changes; otherwise nothing changes |
| ProgressTracker.LessonCompletedSpec | src/progress/tracker.rs:136-157 | `ProgressTracker.LessonCompleted`: with a lesson in progress it is cleared, one record is appended, the total and its language and difficulty counters rise by 1, others stay; otherwise nothing changes |
| ProgressTracker.LessonCompletedValid | src/progress/tracker.rs:136-157 | completing a lesson keeps the invariant |
| ProgressTracker.JourneyStartedSpec | src/progress/tracker.rs:162-168 | `ProgressTracker.JourneyStarted`: the journey restarts at stage 0, topic 0, with no completed topics; nothing else changes |
| ProgressTracker.JourneyLessonCompletedSpec | src/progress/tracker.rs:179-186 | `ProgressTracker.JourneyLessonCompleted`: the stage becomes the index; the title is appended only if absent, keeping the topics duplicate-free; nothing else changes |
| ProgressTracker.JourneyResetSpec | src/progress/tracker.rs:188-192 | `ProgressTracker.JourneyReset` removes the journey and nothing else changes |
| ProgressTracker.Tracker.constructor | src/progress/tracker.rs:50-63 | a fresh tracker holds the default progress |
| ProgressTracker.Tracker.StartLesson | src/progress/tracker.rs:106-124 | the new state is `LessonStarted` of the old one |
| ProgressTracker.Tracker.CompleteExercise | src/progress/tracker.rs:126-132 | the new state is `ExerciseCompleted` of the old one |
| ProgressTracker.Tracker.CompleteLesson | src/progress/tracker.rs:134-158 | the new state is `LessonCompleted` of the old one |
| ProgressTracker.Tracker.StartJourney | src/progress/tracker.rs:160-170 | the new state is `JourneyStarted` of the old one |
| ProgressTracker.Tracker.GetJourneyProgress | src/progress/tracker.rs:172-175 | returns the stored journey |
| ProgressTracker.Tracker.CompleteJourneyLesson | src/progress/tracker.rs:177-186 | the new state is `JourneyLessonCompleted` of the old one |
| ProgressTracker.Tracker.ResetJourney | src/progress/tracker.rs:188-192 | the new state is `JourneyReset` of the old one |

## Left out

- The HTTP calls to the model server, the GPU and device probing, the environment lookups and the
  progress spinner thread in src/ollama/generator.rs. These are network I/O, subprocesses and
  concurrency. The server's reply enters the model as the `response` text and an optional raw
  `response` string.
- `serde_json::from_str` is not modelled. JSON parsing is a parameter: `JsonCheck` for "parses",
  `Parser` for the parsed value. Decoding of the content from a parsed value is modelled.
- The repair is not claimed to always produce parseable JSON. It appends every `]` before every `}`
  whatever the nesting, and key injection can produce `,,`.
- The g++, node and Cargo processes, and the file writes and clean-up of the runners, are not
  modelled. `FileManager.CreateExerciseFile` always succeeds: the failures of `create_dir_all`
  and of the file write are not modelled. Each runner is a parameter from file and input to a result. `RustRunner.Execute`
  takes a Cargo oracle that receives the derived manifest.
- The printing, prompts, screen clearing and the retry/skip loop of src/lessons/lesson_manager.rs
  are not modelled. Whether a lesson finished, and whether the learner goes on, are inputs:
  `LessonOutcome` and `Attempt.goOn`.
- The journey loop runs over a finite sequence of attempts. Running out of attempts ends the
  session, where the program would wait for the next answer.
- The tracker's file I/O is not modelled: the home-directory lookup, directory creation, the JSON
  reading and writing, and the errors each may return. `Load` takes the file's contents and a
  decoder. Timestamps are `now` parameters.
- ProgressTracker.Tracker.CompleteExercise: `usize` overflow of the counters is not modelled;
  integers are unbounded.
- Strings are sequences of characters. Unicode case mapping, byte offsets and grapheme widths are
  not modelled. Lower-casing is ASCII, and the mining searches in the original text at offsets
  found in its lower-cased copy, which agree for ASCII.
- The colour functions, the banner and the command-line dispatch (src/cli/commands.rs) are not
  modelled, including its random topic pick.
- src/config/ruleset.rs is a prompt template filled in for the network request. It is not part of
  this model.
- src/main.rs and the `mod.rs` files only declare modules.
- TryExtractIncompleteJson (`JsonExtraction.TryExtractIncompleteJson`): uses the corrected `Minimal` (see Findings), so when the
  repaired text does not parse but `{"concept": "…", …}` does, it returns that object where the
  program returns `None`. The program's step is `RepairAttemptAsWritten`, which adds nothing in that
  case (`RepairAttemptAsWrittenAddsNothing`). The same holds for `TryExtractSpec`, which it computes.
- TryFence (`JsonExtraction.TryFence`): inherits the corrected reconstruction through the repair of the fence body, so it can
  return `Some` where the program returns `None`.
- TryDirect (`JsonExtraction.TryDirect`): inherits the corrected reconstruction through the repair of the direct candidate, so it
  can return `Some` where the program returns `None`.
- ExtractJson (`JsonExtraction.ExtractJson`): inherits the corrected reconstruction through its three candidates, so it can return
  `Ok` where the program falls through to the next candidate or returns `Err`. The same holds for
  `ExtractJsonSpec`, and through it for `Generation.AcquiredContent` and
  `Generation.GenerateFromReply`, which can use decoded content where the program uses the fallback.
- FromJson (`Formatter.FromJson`): the serde error messages, line and column positions and streaming order are not
  modelled. The text is parsed whole by the `Parser` parameter and then decoded; the decoders
  `DecodeCodeExample`, `DecodeTestCase`, `DecodeExercise` and `DecodeContent` accept both the object
  form and the positional array form.
- Fallback.MinedSteps: proves the bound of six steps and their `Step ` prefix, not the exact step
  text.
- Fallback.MinedBlocks: proves the bound of two blocks. The text of a block is given by
  `MinedBlock`, which carries no contract of its own.
- RustRunner.CargoToml: states the header, the `[dependencies]` section and that every line is
  present. It does not state the exact layout of the section.

## Findings

| source | as written | input that shows it | evidently intended | confidence | as-written member | corrected member |
|---|---|---|---|---|---|---|
| src/ollama/generator.rs:748-761 | the minimal object searches for the first `"` from the start of the `"concept":` key and finds the key's own opening quote, so the copied value is just `"concept"` and the result is always `{"concept", "step_by_step": [], …}`, a key without a value | `{"concept": "Loops"` | copy the concept's quoted value, giving `{"concept": "Loops", "step_by_step": [], …}` | not executed | JsonExtraction.MinimalAsWrittenLosesValue | JsonExtraction.MinimalKeepsConcept |
