/** The learning-progress store of src/lib/storage/progressStore.ts: the
    current path, per-module progress, per-point mastery and the study
    statistics, each action rewriting one of them. Study dates are UTC day
    numbers (`Clock.DayOf`), the form in which the source compares its
    `YYYY-MM-DD` strings. */
module ProgressStorage {
  import opened Seqs
  import Clock

  /** How many lessons of a module are done, out of how many. */
  datatype ModuleProgress = ModuleProgress(completed: int, total: int)

  /** Minutes studied in all, the current streak of study days, and the
      last day studied (`None` for the source's `null`). */
  datatype LearningStats = LearningStats(totalStudyTime: int, consecutiveDays: int, lastStudyDate: Option<int>)

  /** The statistics of a learner who has not studied yet. */
  const InitialStats: LearningStats := LearningStats(0, 0, None)

  /** A module counts as completed once all of its lessons, and at least
      one, are done. */
  predicate IsModuleCompleted(p: ModuleProgress)
    ensures IsModuleCompleted(p) ==> p.total >= 1 && p.completed == p.total
    ensures p.total >= 1 && p.completed == p.total ==> IsModuleCompleted(p)
  {
    p.completed == p.total && p.total > 0
  }

  /** `Math.min(100, Math.max(0, mastery))`. */
  function Clamp(mastery: real): (r: real)
    ensures 0.0 <= r <= 100.0
    ensures 0.0 <= mastery <= 100.0 ==> r == mastery
    ensures mastery < 0.0 ==> r == 0.0
    ensures mastery > 100.0 ==> r == 100.0
  {
    if mastery > 100.0 then 100.0 else if mastery < 0.0 then 0.0 else mastery
  }

  /** Clamping twice is clamping once. */
  lemma ClampIdempotent(mastery: real)
    ensures Clamp(Clamp(mastery)) == Clamp(mastery)
  {
  }

  /** Clamping keeps the order of two values. */
  lemma ClampMonotone(a: real, b: real)
    requires a <= b
    ensures Clamp(a) <= Clamp(b)
  {
  }

  /** The streak rule: a second session on the same day changes nothing; a
      session on the day after the last one extends the streak; any other
      session starts a new streak of one day. */
  function StreakAfter(stats: LearningStats, today: int): (r: LearningStats)
    ensures r.totalStudyTime == stats.totalStudyTime
    ensures r.lastStudyDate == Some(today)
    ensures stats.lastStudyDate == Some(today) ==> r == stats
    ensures stats.lastStudyDate == Some(today - 1) ==> r.consecutiveDays == stats.consecutiveDays + 1
    ensures stats.lastStudyDate != Some(today) && stats.lastStudyDate != Some(today - 1) ==> r.consecutiveDays == 1
  {
    if stats.lastStudyDate == Some(today) then stats
    else
      var streak := if stats.lastStudyDate == Some(today - 1) then stats.consecutiveDays + 1 else 1;
      stats.(consecutiveDays := streak, lastStudyDate := Some(today))
  }

  /** What the store keeps true: a streak exists exactly when some day has
      been studied, and it is then at least one day long. */
  predicate StatsValid(stats: LearningStats)
  {
    && stats.consecutiveDays >= 0
    && (stats.lastStudyDate.None? <==> stats.consecutiveDays == 0)
  }

  /** The streak rule keeps the statistics valid. */
  lemma StreakKeepsValid(stats: LearningStats, today: int)
    requires StatsValid(stats)
    ensures StatsValid(StreakAfter(stats, today)) && StreakAfter(stats, today).consecutiveDays >= 1
  {
  }

  /** Recording the same day again is idempotent. */
  lemma StreakIdempotent(stats: LearningStats, today: int)
    ensures StreakAfter(StreakAfter(stats, today), today) == StreakAfter(stats, today)
  {
  }

  /** Missing at least one day resets the streak to one. */
  lemma GapResetsStreak(stats: LearningStats, last: int, today: int)
    requires stats.lastStudyDate == Some(last) && today > last + 1
    ensures StreakAfter(stats, today).consecutiveDays == 1
  {
  }

  /** The statistics after one session on each day of `days`, in order. */
  function StudyOn(stats: LearningStats, days: seq<int>): (r: LearningStats)
    ensures r.totalStudyTime == stats.totalStudyTime
    ensures days != [] ==> r.lastStudyDate == Some(days[|days| - 1])
    decreases |days|
  {
    if days == [] then stats else StudyOn(StreakAfter(stats, days[0]), days[1..])
  }

  /** Studying on `n` days in a row, right after the last day studied,
      lengthens the streak by `n`. */
  lemma {:induction false} ConsecutiveDaysCount(stats: LearningStats, days: seq<int>)
    requires stats.lastStudyDate.Some?
    requires forall i :: 0 <= i < |days| ==> days[i] == stats.lastStudyDate.value + 1 + i
    ensures StudyOn(stats, days).consecutiveDays == stats.consecutiveDays + |days|
    decreases |days|
  {
    if days != [] {
      var next := StreakAfter(stats, days[0]);
      assert next.consecutiveDays == stats.consecutiveDays + 1;
      forall i | 0 <= i < |days[1..]|
        ensures days[1..][i] == next.lastStudyDate.value + 1 + i
      {
        assert days[1..][i] == days[i + 1];
      }
      ConsecutiveDaysCount(next, days[1..]);
    }
  }

  /** Any number of sessions on one day counts that day once. */
  lemma {:induction false} SameDaySessions(stats: LearningStats, days: seq<int>, today: int)
    requires days != [] && forall i :: 0 <= i < |days| ==> days[i] == today
    ensures StudyOn(stats, days) == StreakAfter(stats, today)
    decreases |days|
  {
    if |days| > 1 {
      SameDaySessions(StreakAfter(stats, today), days[1..], today);
      StreakIdempotent(stats, today);
    }
  }

  /** The learning progress of one learner. */
  class ProgressStore {
    var currentPath: Option<string>
    var moduleProgress: map<string, ModuleProgress>
    var knowledgeMastery: map<string, real>
    var stats: LearningStats

    /** Every stored mastery lies in [0, 100] and the statistics are valid. */
    ghost predicate Valid()
      reads this
    {
      && (forall p :: p in knowledgeMastery ==> 0.0 <= knowledgeMastery[p] <= 100.0)
      && StatsValid(stats)
    }

    /** The initial state: no path, no progress, nothing studied. */
    constructor ()
      ensures Valid()
      ensures currentPath.None? && moduleProgress == map[] && knowledgeMastery == map[]
      ensures stats == InitialStats
    {
      currentPath := None;
      moduleProgress := map[];
      knowledgeMastery := map[];
      stats := InitialStats;
    }

    /** `setCurrentPath`: only the current path changes. */
    method SetCurrentPath(path: string)
      requires Valid()
      modifies this
      ensures Valid()
      ensures currentPath == Some(path)
      ensures moduleProgress == old(moduleProgress) && knowledgeMastery == old(knowledgeMastery)
      ensures stats == old(stats)
    {
      currentPath := Some(path);
    }

    /** `updateModuleProgress`: one module's entry is set; every other key
        and every other field is left as it was. */
    method UpdateModuleProgress(moduleId: string, completed: int, total: int)
      requires Valid()
      modifies this
      ensures Valid()
      ensures moduleProgress == old(moduleProgress)[moduleId := ModuleProgress(completed, total)]
      ensures currentPath == old(currentPath) && knowledgeMastery == old(knowledgeMastery)
      ensures stats == old(stats)
    {
      moduleProgress := moduleProgress[moduleId := ModuleProgress(completed, total)];
    }

    /** `updateKnowledgeMastery`: one point's mastery is set to the given
        value clamped to [0, 100]; every other key and field is unchanged. */
    method UpdateKnowledgeMastery(pointId: string, mastery: real)
      requires Valid()
      modifies this
      ensures Valid()
      ensures knowledgeMastery == old(knowledgeMastery)[pointId := Clamp(mastery)]
      ensures currentPath == old(currentPath) && moduleProgress == old(moduleProgress)
      ensures stats == old(stats)
    {
      knowledgeMastery := knowledgeMastery[pointId := Clamp(mastery)];
    }

    /** `addStudyTime`: the total grows by exactly `minutes`; the streak and
        the last study day are untouched. */
    method AddStudyTime(minutes: int)
      requires Valid()
      modifies this
      ensures Valid()
      ensures stats == old(stats).(totalStudyTime := old(stats).totalStudyTime + minutes)
      ensures currentPath == old(currentPath) && moduleProgress == old(moduleProgress)
      ensures knowledgeMastery == old(knowledgeMastery)
    {
      stats := stats.(totalStudyTime := stats.totalStudyTime + minutes);
    }

    /** `updateConsecutiveDays` at instant `now`: today's and yesterday's
        UTC dates are compared with the last study date, and the statistics
        follow the streak rule. */
    method UpdateConsecutiveDays(now: int)
      requires Valid()
      modifies this
      ensures Valid()
      ensures stats == StreakAfter(old(stats), Clock.DayOf(now))
      ensures stats.consecutiveDays >= 1
      ensures currentPath == old(currentPath) && moduleProgress == old(moduleProgress)
      ensures knowledgeMastery == old(knowledgeMastery)
    {
      var today := Clock.DayOf(now);
      if stats.lastStudyDate == Some(today) {
        StreakKeepsValid(stats, today);
        return;
      }
      var yesterday := Clock.DayOf(now - Clock.MsPerDay);
      Clock.YesterdayIsPreviousDay(now);
      var newConsecutive := if stats.lastStudyDate == Some(yesterday) then stats.consecutiveDays + 1 else 1;
      StreakKeepsValid(stats, today);
      stats := stats.(consecutiveDays := newConsecutive, lastStudyDate := Some(today));
    }
  }
}
