/**
  * Learner progress (src/progress/tracker.rs): the saved record of finished lessons, the lesson
  * in progress, the completion counters and the journey position, and the transitions the
  * lesson screen and the journey apply to it.
  */
module ProgressTracker {
  import opened Wrappers
  import opened Text
  import Languages
  import Difficulties
  import opened LessonTypes

  datatype LessonRecord = LessonRecord(
    language: Languages.Language, difficulty: Difficulties.Difficulty, lessonType: LessonType,
    topic: string, completedAt: string)

  datatype LessonState = LessonState(
    language: Languages.Language, difficulty: Difficulties.Difficulty, lessonType: LessonType,
    topic: string, currentExercise: nat, totalExercises: nat)

  /** The counters; the maps are keyed by display names. */
  datatype Statistics = Statistics(
    totalLessonsCompleted: nat, lessonsByLanguage: map<string, nat>, lessonsByDifficulty: map<string, nat>)

  datatype JourneyProgress = JourneyProgress(
    language: Languages.Language, currentStage: nat, currentTopicIndex: nat,
    completedTopics: seq<string>, startedAt: string)

  datatype Progress = Progress(
    completedLessons: seq<LessonRecord>, currentLesson: Option<LessonState>,
    statistics: Statistics, journeyProgress: Option<JourneyProgress>)

  /** `Progress::default`: nothing completed, nothing in progress, zero counters, no journey. */
  const DefaultProgress := Progress([], None, Statistics(0, map[], map[]), None)

  const CorruptFileMessage := "Failed to parse progress file. File may be corrupted. Try deleting it and starting fresh."

  /**
    * `load`, given the file's contents (`None` when there is no file) and the JSON decoder:
    * a missing or whitespace-only file gives the default progress; otherwise the decoded
    * progress, or the corrupt-file error.
    */
  function Load(file: Option<string>, decode: string -> Option<Progress>): (r: Result<Progress, string>)
    ensures file.None? || IsBlank(file.value) ==> r == Ok(DefaultProgress)
    ensures file.Some? && !IsBlank(file.value) ==>
      (r.Ok? <==> decode(file.value).Some?) && (r.Ok? ==> r.value == decode(file.value).value)
    ensures r.Err? ==> r.error == CorruptFileMessage
  {
    if file.None? then Ok(DefaultProgress)
    else
      BlankIffTrimEmpty(file.value);
      if Trim(file.value) == [] then Ok(DefaultProgress)
      else match decode(file.value)
        case Some(p) => Ok(p)
        case None => Err(CorruptFileMessage)
  }

  // Counters.

  /** `*map.entry(key).or_insert(0) += 1`. */
  function Tally(m: map<string, nat>, key: string): map<string, nat> {
    m[key := (if key in m then m[key] else 0) + 1]
  }

  /** The value a key counts, zero when absent. */
  function Get(m: map<string, nat>, key: string): nat {
    if key in m then m[key] else 0
  }

  /** The sum of all counters in a map. */
  ghost function MapSum(m: map<string, nat>): nat
    decreases |m|
  {
    if m == map[] then 0
    else
      var k :| k in m;
      assert |m - {k}| < |m| by {
        assert m.Keys == (m - {k}).Keys + {k};
      }
      m[k] + MapSum(m - {k})
  }

  lemma {:induction false} MapSumRemove(m: map<string, nat>, k: string)
    requires k in m
    ensures MapSum(m) == m[k] + MapSum(m - {k})
    decreases |m|
  {
    var j :| j in m && MapSum(m) == m[j] + MapSum(m - {j});
    if j != k {
      assert m.Keys == (m - {k}).Keys + {k};
      assert m.Keys == (m - {j}).Keys + {j};
      MapSumRemove(m - {j}, k);
      MapSumRemove(m - {k}, j);
      assert m - {j} - {k} == m - {k} - {j};
    }
  }

  /** Each tally adds exactly one to the sum of the counters. */
  lemma TallySum(m: map<string, nat>, key: string)
    ensures MapSum(Tally(m, key)) == MapSum(m) + 1
  {
    var t := Tally(m, key);
    MapSumRemove(t, key);
    if key in m {
      MapSumRemove(m, key);
      assert t - {key} == m - {key};
    } else {
      assert t - {key} == m;
    }
  }

  /** The per-language counters that tallying the records in order produces. */
  function LanguageCounts(records: seq<LessonRecord>): map<string, nat> {
    if records == [] then map[]
    else Tally(LanguageCounts(records[..|records| - 1]), Languages.DisplayName(records[|records| - 1].language))
  }

  /** The per-difficulty counters that tallying the records in order produces. */
  function DifficultyCounts(records: seq<LessonRecord>): map<string, nat> {
    if records == [] then map[]
    else Tally(DifficultyCounts(records[..|records| - 1]), Difficulties.DisplayName(records[|records| - 1].difficulty))
  }

  /** The number of records in a language. */
  function CountIn(records: seq<LessonRecord>, l: Languages.Language): nat {
    if records == [] then 0
    else CountIn(records[..|records| - 1], l) + (if records[|records| - 1].language == l then 1 else 0)
  }

  /** The number of records at a difficulty. */
  function CountAt(records: seq<LessonRecord>, d: Difficulties.Difficulty): nat {
    if records == [] then 0
    else CountAt(records[..|records| - 1], d) + (if records[|records| - 1].difficulty == d then 1 else 0)
  }

  /** The counters add up to the number of records. */
  lemma {:induction false} CountsSum(records: seq<LessonRecord>)
    ensures MapSum(LanguageCounts(records)) == |records|
    ensures MapSum(DifficultyCounts(records)) == |records|
    decreases |records|
  {
    if records != [] {
      var n := |records| - 1;
      CountsSum(records[..n]);
      TallySum(LanguageCounts(records[..n]), Languages.DisplayName(records[n].language));
      TallySum(DifficultyCounts(records[..n]), Difficulties.DisplayName(records[n].difficulty));
    }
  }

  /**
    * Each language's counter is the number of its records, and each difficulty's counter the
    * number of records at it: distinct display names keep the counters apart.
    */
  lemma {:induction false} CountsPerKey(records: seq<LessonRecord>, l: Languages.Language, d: Difficulties.Difficulty)
    ensures Get(LanguageCounts(records), Languages.DisplayName(l)) == CountIn(records, l)
    ensures Get(DifficultyCounts(records), Difficulties.DisplayName(d)) == CountAt(records, d)
    decreases |records|
  {
    if records != [] {
      var n := |records| - 1;
      CountsPerKey(records[..n], l, d);
      Languages.NamesIdentifyLanguage(records[n].language, l);
      Difficulties.NamesIdentifyDifficulty(records[n].difficulty, d);
    }
  }

  // The invariant.

  predicate NoDuplicates(xs: seq<string>) {
    forall i, j :: 0 <= i < j < |xs| ==> xs[i] != xs[j]
  }

  /**
    * The consistency every transition keeps: the total is the number of records, the counters
    * are the tallies of the records, and the journey's completed titles are distinct.
    */
  predicate Valid(p: Progress) {
    && p.statistics.totalLessonsCompleted == |p.completedLessons|
    && p.statistics.lessonsByLanguage == LanguageCounts(p.completedLessons)
    && p.statistics.lessonsByDifficulty == DifficultyCounts(p.completedLessons)
    && (p.journeyProgress.Some? ==> NoDuplicates(p.journeyProgress.value.completedTopics))
  }

  /** The default progress is consistent. */
  lemma DefaultValid()
    ensures Valid(DefaultProgress)
    ensures Load(None, _ => None) == Ok(DefaultProgress)
  {
  }

  /** In a consistent state both counter maps add up to the total. */
  lemma ValidCountersAddUp(p: Progress)
    requires Valid(p)
    ensures MapSum(p.statistics.lessonsByLanguage) == p.statistics.totalLessonsCompleted
    ensures MapSum(p.statistics.lessonsByDifficulty) == p.statistics.totalLessonsCompleted
  {
    CountsSum(p.completedLessons);
  }

  // Transitions.

  /** `start_lesson`: a fresh lesson state at exercise 0. */
  function LessonStarted(p: Progress, l: Languages.Language, d: Difficulties.Difficulty, t: LessonType, topic: string, total: nat): Progress {
    p.(currentLesson := Some(LessonState(l, d, t, topic, 0, total)))
  }

  /** `complete_exercise`: one more exercise done in the active lesson, if any. */
  function ExerciseCompleted(p: Progress): Progress {
    match p.currentLesson
    case Some(s) => p.(currentLesson := Some(s.(currentExercise := s.currentExercise + 1)))
    case None => p
  }

  /** `complete_lesson`: the active lesson, if any, becomes a record and is counted. */
  function LessonCompleted(p: Progress, now: string): Progress {
    match p.currentLesson
    case None => p
    case Some(s) =>
      p.(currentLesson := None,
         completedLessons := p.completedLessons + [LessonRecord(s.language, s.difficulty, s.lessonType, s.topic, now)],
         statistics := Statistics(p.statistics.totalLessonsCompleted + 1,
                                  Tally(p.statistics.lessonsByLanguage, Languages.DisplayName(s.language)),
                                  Tally(p.statistics.lessonsByDifficulty, Difficulties.DisplayName(s.difficulty))))
  }

  /** `start_journey`: a new journey at stage 0 with nothing completed. */
  function JourneyStarted(p: Progress, l: Languages.Language, now: string): Progress {
    p.(journeyProgress := Some(JourneyProgress(l, 0, 0, [], now)))
  }

  /** `complete_journey_lesson`: the stage becomes the lesson's index; a new title is appended. */
  function JourneyLessonCompleted(p: Progress, index: nat, title: string): Progress {
    match p.journeyProgress
    case None => p
    case Some(j) =>
      p.(journeyProgress := Some(j.(currentStage := index,
                                    completedTopics := if title in j.completedTopics then j.completedTopics else j.completedTopics + [title])))
  }

  /** `reset_journey`. */
  function JourneyReset(p: Progress): Progress {
    p.(journeyProgress := None)
  }

  /** `start_lesson` replaces only the lesson in progress, which starts at exercise 0. */
  lemma LessonStartedSpec(p: Progress, l: Languages.Language, d: Difficulties.Difficulty, t: LessonType, topic: string, total: nat)
    ensures var q := LessonStarted(p, l, d, t, topic, total);
      && q.currentLesson.Some? && q.currentLesson.value.currentExercise == 0 && q.currentLesson.value.totalExercises == total
      && q.currentLesson.value.topic == topic && q.currentLesson.value.language == l
      && q.completedLessons == p.completedLessons && q.statistics == p.statistics && q.journeyProgress == p.journeyProgress
    ensures Valid(p) ==> Valid(LessonStarted(p, l, d, t, topic, total))
  {
  }

  /** `complete_exercise` adds exactly one to the exercise count of an active lesson and does nothing otherwise. */
  lemma ExerciseCompletedSpec(p: Progress)
    ensures p.currentLesson.None? ==> ExerciseCompleted(p) == p
    ensures p.currentLesson.Some? ==>
      ExerciseCompleted(p).currentLesson.Some?
      && ExerciseCompleted(p).currentLesson.value.currentExercise == p.currentLesson.value.currentExercise + 1
      && ExerciseCompleted(p).currentLesson.value.(currentExercise := 0) == p.currentLesson.value.(currentExercise := 0)
    ensures ExerciseCompleted(p).(currentLesson := p.currentLesson) == p
    ensures Valid(p) ==> Valid(ExerciseCompleted(p))
  {
  }

  /**
    * `complete_lesson` with an active lesson: the lesson is cleared, one record carrying its
    * language, difficulty, type and topic is appended, the total and the lesson's own language
    * and difficulty counters grow by one and no other counter changes; without one, nothing
    * changes.
    */
  lemma LessonCompletedSpec(p: Progress, now: string, l: Languages.Language, d: Difficulties.Difficulty)
    ensures p.currentLesson.None? ==> LessonCompleted(p, now) == p
    ensures p.currentLesson.Some? ==>
      var s := p.currentLesson.value;
      var q := LessonCompleted(p, now);
      && q.currentLesson.None?
      && q.completedLessons == p.completedLessons + [LessonRecord(s.language, s.difficulty, s.lessonType, s.topic, now)]
      && q.statistics.totalLessonsCompleted == p.statistics.totalLessonsCompleted + 1
      && Get(q.statistics.lessonsByLanguage, Languages.DisplayName(l))
         == Get(p.statistics.lessonsByLanguage, Languages.DisplayName(l)) + (if l == s.language then 1 else 0)
      && Get(q.statistics.lessonsByDifficulty, Difficulties.DisplayName(d))
         == Get(p.statistics.lessonsByDifficulty, Difficulties.DisplayName(d)) + (if d == s.difficulty then 1 else 0)
      && q.journeyProgress == p.journeyProgress
  {
    if p.currentLesson.Some? {
      Languages.NamesIdentifyLanguage(p.currentLesson.value.language, l);
      Difficulties.NamesIdentifyDifficulty(p.currentLesson.value.difficulty, d);
    }
  }

  /** `complete_lesson` keeps the progress consistent. */
  lemma LessonCompletedValid(p: Progress, now: string)
    requires Valid(p)
    ensures Valid(LessonCompleted(p, now))
  {
    if p.currentLesson.Some? {
      var recs := LessonCompleted(p, now).completedLessons;
      assert recs[..|recs| - 1] == p.completedLessons;
    }
  }

  /** `start_journey` resets the position and the completed titles, and touches nothing else. */
  lemma JourneyStartedSpec(p: Progress, l: Languages.Language, now: string)
    ensures var j := JourneyStarted(p, l, now).journeyProgress;
      j.Some? && j.value.language == l && j.value.currentStage == 0 && j.value.currentTopicIndex == 0
      && j.value.completedTopics == []
    ensures JourneyStarted(p, l, now).(journeyProgress := p.journeyProgress) == p
    ensures Valid(p) ==> Valid(JourneyStarted(p, l, now))
  {
  }

  /**
    * `complete_journey_lesson` moves the stage to the lesson's index and records the title once:
    * afterwards the title is among the completed ones, the earlier titles keep their order, and
    * the titles stay distinct. Without a journey nothing changes.
    */
  lemma JourneyLessonCompletedSpec(p: Progress, index: nat, title: string)
    ensures p.journeyProgress.None? ==> JourneyLessonCompleted(p, index, title) == p
    ensures p.journeyProgress.Some? ==>
      var j := p.journeyProgress.value;
      var q := JourneyLessonCompleted(p, index, title).journeyProgress;
      && q.Some? && q.value.currentStage == index && q.value.language == j.language
      && title in q.value.completedTopics
      && q.value.completedTopics[..|j.completedTopics|] == j.completedTopics
      && |q.value.completedTopics| == |j.completedTopics| + (if title in j.completedTopics then 0 else 1)
    ensures JourneyLessonCompleted(p, index, title).(journeyProgress := p.journeyProgress) == p
    ensures Valid(p) ==> Valid(JourneyLessonCompleted(p, index, title))
  {
  }

  /** `reset_journey` drops the journey and nothing else. */
  lemma JourneyResetSpec(p: Progress)
    ensures JourneyReset(p).journeyProgress.None? && JourneyReset(p).(journeyProgress := p.journeyProgress) == p
    ensures Valid(p) ==> Valid(JourneyReset(p))
  {
  }

  /**
    * The tracker, holding the progress it last saved. Every operation reads it, updates it in
    * place and stores it back.
    */
  class Tracker {
    var progress: Progress

    /** A tracker over a missing progress file. */
    constructor ()
      ensures progress == DefaultProgress
    {
      progress := DefaultProgress;
    }

    method StartLesson(l: Languages.Language, d: Difficulties.Difficulty, t: LessonType, topic: string, total: nat)
      modifies this
      ensures progress == LessonStarted(old(progress), l, d, t, topic, total)
    {
      var p := progress;
      p := p.(currentLesson := Some(LessonState(l, d, t, topic, 0, total)));
      progress := p;
    }

    method CompleteExercise()
      modifies this
      ensures progress == ExerciseCompleted(old(progress))
    {
      var p := progress;
      if p.currentLesson.Some? {
        var lesson := p.currentLesson.value;
        lesson := lesson.(currentExercise := lesson.currentExercise + 1);
        p := p.(currentLesson := Some(lesson));
      }
      progress := p;
    }

    /** `now` stands for the clock reading stored as the completion time. */
    method CompleteLesson(now: string)
      modifies this
      ensures progress == LessonCompleted(old(progress), now)
    {
      var p := progress;
      var taken := p.currentLesson;
      p := p.(currentLesson := None);
      if taken.Some? {
        var lesson := taken.value;
        var record := LessonRecord(lesson.language, lesson.difficulty, lesson.lessonType, lesson.topic, now);
        p := p.(completedLessons := p.completedLessons + [record]);
        var stats := p.statistics;
        stats := stats.(totalLessonsCompleted := stats.totalLessonsCompleted + 1);
        stats := stats.(lessonsByLanguage := Tally(stats.lessonsByLanguage, Languages.DisplayName(lesson.language)));
        stats := stats.(lessonsByDifficulty := Tally(stats.lessonsByDifficulty, Difficulties.DisplayName(lesson.difficulty)));
        p := p.(statistics := stats);
      } else {
        p := p.(currentLesson := taken);
      }
      progress := p;
    }

    method StartJourney(l: Languages.Language, now: string)
      modifies this
      ensures progress == JourneyStarted(old(progress), l, now)
    {
      var p := progress;
      p := p.(journeyProgress := Some(JourneyProgress(l, 0, 0, [], now)));
      progress := p;
    }

    method GetJourneyProgress() returns (j: Option<JourneyProgress>)
      ensures j == progress.journeyProgress
    {
      j := progress.journeyProgress;
    }

    method CompleteJourneyLesson(index: nat, title: string)
      modifies this
      ensures progress == JourneyLessonCompleted(old(progress), index, title)
    {
      var p := progress;
      if p.journeyProgress.Some? {
        var journey := p.journeyProgress.value;
        journey := journey.(currentStage := index);
        if title !in journey.completedTopics {
          journey := journey.(completedTopics := journey.completedTopics + [title]);
        }
        p := p.(journeyProgress := Some(journey));
      }
      progress := p;
    }

    method ResetJourney()
      modifies this
      ensures progress == JourneyReset(old(progress))
    {
      var p := progress;
      p := p.(journeyProgress := None);
      progress := p;
    }
  }
}
