/**
  * The learning journey (src/lessons/journey.rs): it walks the built-in lessons of one language,
  * recording each lesson the learner finishes in the progress tracker.
  */
module Journey {
  import opened Wrappers
  import opened Text
  import opened Languages
  import opened Formatter
  import opened HumanLessons
  import opened LessonManager
  import opened ProgressTracker

  /** The journey is started afresh when there is none, or when it is in another language. */
  function NeedsNewJourney(journey: Option<JourneyProgress>, l: Language): bool {
    journey.None? || (match journey case Some(j) => j.language != l case None => true)
  }

  /** The previous lesson: none before the first lesson, otherwise the recorded stage. */
  function LastIndex(j: JourneyProgress): Option<nat> {
    if j.currentStage == 0 && j.completedTopics == [] then None else Some(j.currentStage)
  }

  /** The title a finished lesson is recorded under: its number and the concept up to the first full stop. */
  function LessonTitle(index: nat, concept: string): string {
    "Lesson " + NatToString(index + 1) + ": " + BeforeFirst(concept, '.')
  }

  /** The topic a journey lesson is tracked under. */
  function LessonTopic(index: nat): string {
    "Human-made lesson " + NatToString(index + 1)
  }

  /** How the learner's attempt at a lesson ends: finished, or stopped by an error after some exercises. */
  datatype LessonOutcome = Finished | Stopped(exercisesDone: nat)

  /** One pass of the journey loop: the lesson's outcome and the answer to "continue?". */
  datatype Attempt = Attempt(outcome: LessonOutcome, goOn: bool)

  /** `n` calls of `complete_exercise`. */
  function ExercisesCompleted(p: Progress, n: nat): Progress {
    if n == 0 then p else ExerciseCompleted(ExercisesCompleted(p, n - 1))
  }

  /** The number of exercises the lesson screen runs for a lesson (after adding the placeholder, if needed). */
  function ExerciseTotal(lesson: HumanLesson, topic: string): nat {
    |Prepared(topic, lesson.content.exercises)|
  }

  /**
    * The lesson screen's effect on the tracker: the lesson is started, one exercise is
    * completed per exercise solved, and a finished lesson is completed.
    */
  function LessonRun(p: Progress, lesson: HumanLesson, topic: string, outcome: LessonOutcome, now: string): Progress {
    var total := ExerciseTotal(lesson, topic);
    var started := LessonStarted(p, lesson.language, lesson.difficulty, lesson.lessonType, topic, total);
    match outcome
    case Finished => LessonCompleted(ExercisesCompleted(started, total), now)
    case Stopped(k) => ExercisesCompleted(started, if k < total then k else total)
  }

  /** The journey loop from a tracker state, consuming one attempt per lesson. */
  function JourneyLoop(lessons: seq<HumanLesson>, p: Progress, l: Language, now: string, attempts: seq<Attempt>): Progress
    decreases |attempts|
  {
    if p.journeyProgress.None? then p
    else match NextLessonIn(lessons, LastIndex(p.journeyProgress.value), l)
      case None => p
      case Some((lesson, index)) =>
        if attempts == [] then p
        else
          var p1 := LessonRun(p, lesson, LessonTopic(index), attempts[0].outcome, now);
          if attempts[0].outcome.Stopped? then p1
          else
            var p2 := JourneyLessonCompleted(p1, index, LessonTitle(index, lesson.content.concept));
            if attempts[0].goOn then JourneyLoop(lessons, p2, l, now, attempts[1..]) else p2
  }

  /** The journey state the loop starts from. */
  function JourneyStart(p: Progress, l: Language, now: string): Progress {
    if NeedsNewJourney(p.journeyProgress, l) then JourneyStarted(p, l, now) else p
  }

  /** `start_or_continue_journey`'s effect on the progress. */
  function JourneyRun(lessons: seq<HumanLesson>, p: Progress, l: Language, now: string, attempts: seq<Attempt>): Progress {
    JourneyLoop(lessons, JourneyStart(p, l, now), l, now, attempts)
  }

  /** The number of attempts that finish their lesson. */
  function FinishedCount(attempts: seq<Attempt>): nat {
    if attempts == [] then 0 else (if attempts[0].outcome.Finished? then 1 else 0) + FinishedCount(attempts[1..])
  }

  // Properties of the single decisions.

  /** A new journey starts exactly when there is none or it is in another language. */
  lemma NeedsNewJourneyIff(journey: Option<JourneyProgress>, l: Language)
    ensures NeedsNewJourney(journey, l) <==> journey.None? || journey.value.language != l
  {
  }

  /** The previous lesson is absent exactly at a journey's very start, and is the stage otherwise. */
  lemma LastIndexSpec(j: JourneyProgress)
    ensures LastIndex(j).None? <==> j.currentStage == 0 && j.completedTopics == []
    ensures LastIndex(j).Some? ==> LastIndex(j).value == j.currentStage
  {
  }

  /** Starting a journey makes the journey's language the requested one, and a fresh journey begins at that language's first lesson. */
  lemma StartBeginsAtFirstLesson(lessons: seq<HumanLesson>, p: Progress, l: Language, now: string)
    ensures var q := JourneyStart(p, l, now);
      q.journeyProgress.Some? && q.journeyProgress.value.language == l
    ensures NeedsNewJourney(p.journeyProgress, l) ==>
      var r := NextLessonIn(lessons, LastIndex(JourneyStart(p, l, now).journeyProgress.value), l);
      r.Some? ==> IsFirst(lessons, l, r.value.1)
  {
    NextLessonFromStart(lessons, None, l);
  }

  /**
    * The title is "Lesson n: " with n the lesson's number counted from one, followed by the
    * concept up to, not including, its first full stop (all of it when there is none).
    */
  lemma LessonTitleSpec(index: nat, concept: string)
    ensures var t := LessonTitle(index, concept);
      var head := "Lesson " + NatToString(index + 1) + ": ";
      var rest := t[|head|..];
      && |head| <= |t| && t[..|head|] == head
      && rest == concept[..|rest|]
      && (forall i :: 0 <= i < |rest| ==> rest[i] != '.')
      && (|rest| < |concept| ==> concept[|rest|] == '.')
  {
    var head := "Lesson " + NatToString(index + 1) + ": ";
    var t := LessonTitle(index, concept);
    assert t[|head|..] == BeforeFirst(concept, '.');
  }

  /**
    * The topic is "Human-made lesson n" with n the lesson's number counted from one, so
    * different lessons are tracked under different topics.
    */
  lemma LessonTopicSpec(index: nat, other: nat)
    ensures var head := "Human-made lesson ";
      var t := LessonTopic(index);
      |head| <= |t| && t[..|head|] == head && t[|head|..] == NatToString(index + 1)
    ensures LessonTopic(index) == LessonTopic(other) ==> index == other
  {
    var head := "Human-made lesson ";
    if LessonTopic(index) == LessonTopic(other) {
      assert LessonTopic(index)[|head|..] == NatToString(index + 1);
      assert LessonTopic(other)[|head|..] == NatToString(other + 1);
      NatToStringInjective(index + 1, other + 1);
    }
  }

  // Properties of the loop.

  lemma {:induction false} ExercisesCompletedKeep(p: Progress, n: nat)
    ensures ExercisesCompleted(p, n).completedLessons == p.completedLessons
    ensures ExercisesCompleted(p, n).statistics == p.statistics
    ensures ExercisesCompleted(p, n).journeyProgress == p.journeyProgress
    ensures Valid(p) ==> Valid(ExercisesCompleted(p, n))
  {
    if n > 0 {
      ExercisesCompletedKeep(p, n - 1);
      ExerciseCompletedSpec(ExercisesCompleted(p, n - 1));
    }
  }

  /**
    * A lesson run leaves the journey alone, keeps the progress consistent, and adds at most
    * one record, only for a finished lesson, carrying the lesson's language and topic.
    */
  lemma LessonRunSpec(p: Progress, lesson: HumanLesson, topic: string, outcome: LessonOutcome, now: string)
    ensures var q := LessonRun(p, lesson, topic, outcome, now);
      && q.journeyProgress == p.journeyProgress
      && (outcome.Stopped? ==> q.completedLessons == p.completedLessons)
      && (outcome.Finished? ==>
            && |q.completedLessons| == |p.completedLessons| + 1
            && q.completedLessons[..|p.completedLessons|] == p.completedLessons
            && q.completedLessons[|p.completedLessons|].language == lesson.language
            && q.completedLessons[|p.completedLessons|].topic == topic)
    ensures Valid(p) ==> Valid(LessonRun(p, lesson, topic, outcome, now))
  {
    var total := ExerciseTotal(lesson, topic);
    var started := LessonStarted(p, lesson.language, lesson.difficulty, lesson.lessonType, topic, total);
    LessonStartedSpec(p, lesson.language, lesson.difficulty, lesson.lessonType, topic, total);
    ExercisesCompletedKeep(started, total);
    match outcome {
      case Finished =>
        var e := ExercisesCompleted(started, total);
        ExercisesCurrent(started, total);
        if Valid(p) {
          LessonCompletedValid(e, now);
        }
      case Stopped(k) =>
        ExercisesCompletedKeep(started, if k < total then k else total);
    }
  }

  lemma {:induction false} ExercisesCurrent(p: Progress, n: nat)
    requires p.currentLesson.Some?
    ensures ExercisesCompleted(p, n).currentLesson.Some?
    ensures ExercisesCompleted(p, n).currentLesson.value.topic == p.currentLesson.value.topic
    ensures ExercisesCompleted(p, n).currentLesson.value.language == p.currentLesson.value.language
  {
    if n > 0 {
      ExercisesCurrent(p, n - 1);
    }
  }

  /**
    * `q` continues the journey of `p` in language `l` with at most `extra` new titles and at
    * most `extra` new lesson records: the journey is still in `l`, its titles only grew, its
    * stage is unchanged or names a built-in lesson of `l`, and every lesson record added since
    * belongs to `l`.
    */
  predicate Extends(lessons: seq<HumanLesson>, p: Progress, q: Progress, l: Language, extra: nat) {
    && p.journeyProgress.Some? && q.journeyProgress.Some? && q.journeyProgress.value.language == l
    && (var before := p.journeyProgress.value.completedTopics;
        var after := q.journeyProgress.value.completedTopics;
        |before| <= |after| <= |before| + extra && after[..|before|] == before)
    && (q.journeyProgress.value.currentStage == p.journeyProgress.value.currentStage
        || (q.journeyProgress.value.currentStage < |lessons| && lessons[q.journeyProgress.value.currentStage].language == l))
    && |p.completedLessons| <= |q.completedLessons| <= |p.completedLessons| + extra
    && q.completedLessons[..|p.completedLessons|] == p.completedLessons
    && (forall k :: |p.completedLessons| <= k < |q.completedLessons| ==> q.completedLessons[k].language == l)
  }

  lemma ExtendsTransitive(lessons: seq<HumanLesson>, p: Progress, q: Progress, r: Progress, l: Language, a: nat, b: nat)
    requires Extends(lessons, p, q, l, a) && Extends(lessons, q, r, l, b)
    ensures Extends(lessons, p, r, l, a + b)
  {
    var tp := p.journeyProgress.value.completedTopics;
    var tq := q.journeyProgress.value.completedTopics;
    var tr := r.journeyProgress.value.completedTopics;
    assert tr[..|tp|] == tr[..|tq|][..|tp|];
    assert r.completedLessons[..|p.completedLessons|] == r.completedLessons[..|q.completedLessons|][..|p.completedLessons|];
  }

  /**
    * One pass of the loop continues the journey. A stopped lesson adds nothing; a finished one
    * adds exactly one lesson record, in `l` and under the lesson's topic, and leaves its title
    * among the journey's titles with the stage at the lesson's index.
    */
  lemma JourneyStepSpec(lessons: seq<HumanLesson>, p: Progress, l: Language, now: string, a: Attempt, lesson: HumanLesson, index: nat)
    requires p.journeyProgress.Some? && p.journeyProgress.value.language == l
    requires NextLessonIn(lessons, LastIndex(p.journeyProgress.value), l) == Some((lesson, index))
    ensures var p1 := LessonRun(p, lesson, LessonTopic(index), a.outcome, now);
      && (a.outcome.Stopped? ==> Extends(lessons, p, p1, l, 0))
      && (a.outcome.Finished? ==> Extends(lessons, p, JourneyLessonCompleted(p1, index, LessonTitle(index, lesson.content.concept)), l, 1))
    ensures a.outcome.Finished? ==>
      var p2 := JourneyLessonCompleted(LessonRun(p, lesson, LessonTopic(index), a.outcome, now), index, LessonTitle(index, lesson.content.concept));
      && |p2.completedLessons| == |p.completedLessons| + 1
      && p2.completedLessons[|p.completedLessons|].language == l
      && p2.completedLessons[|p.completedLessons|].topic == LessonTopic(index)
      && LessonTitle(index, lesson.content.concept) in p2.journeyProgress.value.completedTopics
      && p2.journeyProgress.value.currentStage == index
    ensures Valid(p) ==> Valid(LessonRun(p, lesson, LessonTopic(index), a.outcome, now))
    ensures Valid(p) ==>
      Valid(JourneyLessonCompleted(LessonRun(p, lesson, LessonTopic(index), a.outcome, now), index, LessonTitle(index, lesson.content.concept)))
  {
    var p1 := LessonRun(p, lesson, LessonTopic(index), a.outcome, now);
    LessonRunSpec(p, lesson, LessonTopic(index), a.outcome, now);
    JourneyLessonCompletedSpec(p1, index, LessonTitle(index, lesson.content.concept));
    if a.outcome.Stopped? {
      assert p1.completedLessons[..|p.completedLessons|] == p1.completedLessons;
      assert p.journeyProgress.value.completedTopics[..|p.journeyProgress.value.completedTopics|] == p.journeyProgress.value.completedTopics;
    }
  }

  /**
    * What the loop does to a journey in progress in `l`: it continues it, with at most one new
    * title per finished lesson, and keeps the progress consistent.
    */
  lemma {:induction false} JourneyLoopSpec(lessons: seq<HumanLesson>, p: Progress, l: Language, now: string, attempts: seq<Attempt>)
    requires p.journeyProgress.Some? && p.journeyProgress.value.language == l
    ensures Extends(lessons, p, JourneyLoop(lessons, p, l, now, attempts), l, FinishedCount(attempts))
    ensures Valid(p) ==> Valid(JourneyLoop(lessons, p, l, now, attempts))
    decreases |attempts|
  {
    var next := NextLessonIn(lessons, LastIndex(p.journeyProgress.value), l);
    if next.None? || attempts == [] {
      assert JourneyLoop(lessons, p, l, now, attempts) == p;
      assert p.completedLessons[..|p.completedLessons|] == p.completedLessons;
      assert p.journeyProgress.value.completedTopics[..|p.journeyProgress.value.completedTopics|] == p.journeyProgress.value.completedTopics;
    } else {
      var (lesson, index) := next.value;
      var a := attempts[0];
      JourneyLoopUnfold(lessons, p, l, now, attempts, lesson, index);
      JourneyStepSpec(lessons, p, l, now, a, lesson, index);
      var p1 := LessonRun(p, lesson, LessonTopic(index), a.outcome, now);
      var p2 := JourneyLessonCompleted(p1, index, LessonTitle(index, lesson.content.concept));
      if a.outcome.Finished? && a.goOn {
        JourneyLoopSpec(lessons, p2, l, now, attempts[1..]);
        ExtendsTransitive(lessons, p, p2, JourneyLoop(lessons, p2, l, now, attempts[1..]), l, 1, FinishedCount(attempts[1..]));
      }
    }
  }

  /**
    * `start_or_continue_journey` ends with a journey in the requested language that continues
    * the journey it started from, with at most one new title per finished lesson; a consistent
    * progress stays consistent.
    */
  lemma JourneyRunSpec(lessons: seq<HumanLesson>, p: Progress, l: Language, now: string, attempts: seq<Attempt>)
    ensures Extends(lessons, JourneyStart(p, l, now), JourneyRun(lessons, p, l, now, attempts), l, FinishedCount(attempts))
    ensures JourneyRun(lessons, p, l, now, attempts).completedLessons[..|p.completedLessons|] == p.completedLessons
    ensures Valid(p) ==> Valid(JourneyRun(lessons, p, l, now, attempts))
  {
    var s := JourneyStart(p, l, now);
    StartBeginsAtFirstLesson(lessons, p, l, now);
    JourneyLoopSpec(lessons, s, l, now, attempts);
    if NeedsNewJourney(p.journeyProgress, l) {
      JourneyStartedSpec(p, l, now);
    }
  }

  /** A lesson that is not finished is never recorded as a journey step: the loop stops with the journey untouched. */
  lemma StoppedLessonNotRecorded(lessons: seq<HumanLesson>, p: Progress, l: Language, now: string, attempts: seq<Attempt>)
    requires attempts != [] && attempts[0].outcome.Stopped?
    ensures JourneyLoop(lessons, p, l, now, attempts).journeyProgress == p.journeyProgress
    ensures JourneyLoop(lessons, p, l, now, attempts).completedLessons == p.completedLessons
  {
    if p.journeyProgress.Some? {
      var next := NextLessonIn(lessons, LastIndex(p.journeyProgress.value), l);
      if next.Some? {
        var (lesson, index) := next.value;
        LessonRunSpec(p, lesson, LessonTopic(index), attempts[0].outcome, now);
      }
    }
  }

  // The loop itself.

  /** One pass of the loop, when a journey exists, a lesson is available and an attempt is left. */
  lemma JourneyLoopUnfold(lessons: seq<HumanLesson>, p: Progress, l: Language, now: string, attempts: seq<Attempt>, lesson: HumanLesson, index: nat)
    requires p.journeyProgress.Some? && NextLessonIn(lessons, LastIndex(p.journeyProgress.value), l) == Some((lesson, index))
    requires attempts != []
    ensures var p1 := LessonRun(p, lesson, LessonTopic(index), attempts[0].outcome, now);
      var p2 := JourneyLessonCompleted(p1, index, LessonTitle(index, lesson.content.concept));
      JourneyLoop(lessons, p, l, now, attempts)
      == if attempts[0].outcome.Stopped? then p1 else if attempts[0].goOn then JourneyLoop(lessons, p2, l, now, attempts[1..]) else p2
  {
  }

  /** The lesson screen as the journey drives it, reporting whether the lesson was finished. */
  method RunLesson(tracker: Tracker, lesson: HumanLesson, topic: string, outcome: LessonOutcome, now: string) returns (finished: bool)
    modifies tracker
    ensures tracker.progress == LessonRun(old(tracker.progress), lesson, topic, outcome, now)
    ensures finished <==> outcome.Finished?
  {
    var exercises := PrepareExercises(topic, lesson.content.exercises);
    tracker.StartLesson(lesson.language, lesson.difficulty, lesson.lessonType, topic, |exercises|);
    ghost var started := tracker.progress;
    var done := |exercises|;
    if outcome.Stopped? && outcome.exercisesDone < |exercises| {
      done := outcome.exercisesDone;
    }
    for k := 0 to done
      invariant tracker.progress == ExercisesCompleted(started, k)
    {
      tracker.CompleteExercise();
    }
    if outcome.Stopped? {
      return false;
    }
    tracker.CompleteLesson(now);
    return true;
  }

  /**
    * One pass of the journey loop over the remaining attempts: reload the journey, pick the
    * next lesson, run it and record it. `more` says whether the loop goes on with the
    * remaining attempts after the first.
    */
  method JourneyPass(lessons: seq<HumanLesson>, tracker: Tracker, l: Language, now: string, attempts: seq<Attempt>) returns (more: bool)
    requires attempts != []
    modifies tracker
    ensures more ==> JourneyLoop(lessons, tracker.progress, l, now, attempts[1..]) == JourneyLoop(lessons, old(tracker.progress), l, now, attempts)
    ensures !more ==> tracker.progress == JourneyLoop(lessons, old(tracker.progress), l, now, attempts)
  {
    var journey := tracker.GetJourneyProgress();
    if journey.None? {
      return false;
    }
    var next := NextLessonIn(lessons, LastIndex(journey.value), l);
    if next.None? {
      return false;
    }
    var (lesson, index) := next.value;
    var title := LessonTitle(index, lesson.content.concept);
    var topic := LessonTopic(index);
    JourneyLoopUnfold(lessons, tracker.progress, l, now, attempts, lesson, index);
    var finished := RunLesson(tracker, lesson, topic, attempts[0].outcome, now);
    if !finished {
      return false;
    }
    tracker.CompleteJourneyLesson(index, title);
    return attempts[0].goOn;
  }

  /**
    * `start_or_continue_journey`: start a journey if needed, then take lessons one after the
    * other until one is not finished, the learner declines to continue, no lesson is
    * available, or the attempts run out.
    */
  method StartOrContinueJourney(lessons: seq<HumanLesson>, tracker: Tracker, l: Language, now: string, attempts: seq<Attempt>)
    modifies tracker
    ensures tracker.progress == JourneyRun(lessons, old(tracker.progress), l, now, attempts)
  {
    var journey := tracker.GetJourneyProgress();
    if NeedsNewJourney(journey, l) {
      tracker.StartJourney(l, now);
    }
    assert attempts[0..] == attempts;
    var i := 0;
    while i < |attempts|
      invariant 0 <= i <= |attempts|
      invariant JourneyLoop(lessons, tracker.progress, l, now, attempts[i..]) == JourneyRun(lessons, old(tracker.progress), l, now, attempts)
      decreases |attempts| - i
    {
      var more := JourneyPass(lessons, tracker, l, now, attempts[i..]);
      if !more {
        return;
      }
      assert attempts[i..][1..] == attempts[i + 1..];
      i := i + 1;
    }
  }
}
