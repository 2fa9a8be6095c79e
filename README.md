# Study-app scheduling, recommendation and stores in Dafny

This project models the `src/lib` layer of a Next.js study app for graduate
exams:

- the SM-2 spaced-repetition scheduler (`calculateNextReview`, `isDue`,
  `getDefaultReviewData`) of `src/lib/algorithms/spacedRepetition.ts`;
- the flashcard review store of `src/lib/storage/flashcardStore.ts`. It keeps
  its own, different copy of the SM-2 update, a map from card id to review
  record, the `reviewCard` action and the `getNextReviewDate`,
  `getDueCards` and `getMasteredCards` queries;
- `generateRecommendations` of `src/lib/algorithms/recommendation.ts`. Its
  five rules each push at most one suggestion, then the list is sorted by
  priority;
- the progress store of `src/lib/storage/progressStore.ts`: current path,
  per-module progress, clamped per-point mastery, study time and the
  study-streak rule;
- the settings store of `src/lib/storage/settingsStore.ts`: defaults, partial
  merge and reset.

Modelling choices:

- **Ease factors** are integer hundredths: 250 stands for 2.5 and the floor
  is 130. Every ease the two schedulers produce is 2.5 plus whole
  hundredths, so this is exact.
- **Rounding.** `Math.round(x / 100)` is `(x + 50) / 100`. Division by 100
  on integers is floor division, so this rounds half up, as `Math.round`
  does.
- **Time.** Instants are integer milliseconds passed in as `now`. A
  calendar date (`toISOString().split('T')[0]`) is the UTC day number
  `now / 86400000`. "n days later" is `now + n * 86400000`.
- **Record entries.** `Object.entries` over a record is a sequence of
  entries in listing order. `record[key]` takes the first entry with that
  key.
- **Stores.** The zustand stores are classes. Their fields are reassigned
  by the actions.
- **Recommendation sort.** `generateRecommendations` is a method that
  pushes step by step and then sorts with a modelled insertion sort.
- **Update step.** Each scheduler update is a pure function.

The two schedulers are kept apart. `SchedulerVariants` proves where they
agree and where they differ:

- they agree on the repetition count, on the first two passing intervals
  and on the whole perfect-rating update;
- they differ on the ease change for ratings 3 and 4, and on when a failed
  card is due again.

For three perfect reviews of a new card the third interval is
round(6 × 2.8) = 17, because the code scales by the ease just computed
(`SpacedRepetition.ThreePerfectReviews`).

## Model

| member | source | states |
|---|---|---|
| `Seqs.FirstIndex` | src/lib/algorithms/recommendation.ts:66-68 | the index found is the first whose element satisfies the test, or the length when none does |
| `Seqs.FindFirst` | src/lib/algorithms/recommendation.ts:66-68 | `find` gives nothing exactly when no element satisfies the test; otherwise the first element that does |
| `Seqs.Filter` | src/lib/algorithms/recommendation.ts:38-40 | `filter` keeps exactly the elements satisfying the test; it is empty iff none does, and its head is the first that does |
| `Seqs.FilterIsSubsequence` | src/lib/storage/flashcardStore.ts:69-72 | the filtered list keeps the input's order |
| `Seqs.FilterCounts` | src/lib/storage/flashcardStore.ts:69-72 | each kept element keeps its multiplicity; each dropped element occurs zero times |
| `Clock.DayOf` | src/lib/storage/progressStore.ts:65 | the UTC date of an instant is the day whose 24-hour span holds it |
| `Clock.AddDays` | src/lib/storage/flashcardStore.ts:42 | n days later falls on the date n days later, and is strictly later when n is at least 1 |
| `Clock.YesterdayIsPreviousDay` | src/lib/storage/progressStore.ts:70 | the date of "now minus 24 hours" is the day before today's date |
| `Ease.RoundHundredths` | src/lib/algorithms/spacedRepetition.ts:28 | the result is the integer nearest to n/100, halves rounded up |
| `Ease.ScaledIntervalGrows` | src/lib/algorithms/spacedRepetition.ts:28 | scaling a positive interval by an ease of at least 1.3 and rounding never shrinks it |
| `SpacedRepetition.EaseDelta` | src/lib/algorithms/spacedRepetition.ts:16 | the ease change is +0.10, 0, −0.14, −0.32, −0.54 for quality 5 to 1, and never above +0.10 |
| `SpacedRepetition.EaseDeltaMonotone` | src/lib/algorithms/spacedRepetition.ts:16 | a better quality never gives a smaller ease change |
| `SpacedRepetition.CalculateNextReview` | src/lib/algorithms/spacedRepetition.ts:10-47 | the card id is kept; the ease is the old ease plus the change, floored at 1.3, on pass and fail alike; a failure gives 0 repetitions and interval 1; a pass adds one repetition; the last review is now and the next is now plus the interval; a well-formed record stays well formed, and the card is not due at `now` |
| `SpacedRepetition.DefaultReviewData` | src/lib/algorithms/spacedRepetition.ts:54-63 | ease 2.5, interval 0, no repetitions, no timestamps, and due at every instant |
| `SpacedRepetition.PassingInterval` | src/lib/algorithms/spacedRepetition.ts:22-30 | passing intervals are 1 after no repetitions, 6 after one, else the previous interval times the new ease rounded to the nearest day, never shorter than before |
| `SpacedRepetition.IsDue` | src/lib/algorithms/spacedRepetition.ts:49-52 | a card with no next-review instant is due at every instant; otherwise it is due exactly when that instant is not after now |
| `SpacedRepetition.DueStaysDue` | src/lib/algorithms/spacedRepetition.ts:49-52 | a card that is due stays due as time goes on |
| `SpacedRepetition.DueAfterInterval` | src/lib/algorithms/spacedRepetition.ts:36-52 | after a review the card is due exactly from now plus its new interval |
| `SpacedRepetition.ReviewAll` | src/lib/algorithms/spacedRepetition.ts:10-47 | a run of reviews keeps the card id and keeps a record well formed |
| `SpacedRepetition.PassingRunCountsRepetitions` | src/lib/algorithms/spacedRepetition.ts:22-30 | n passing reviews add exactly n repetitions |
| `SpacedRepetition.FailureResetsStreak` | src/lib/algorithms/spacedRepetition.ts:31-34 | after the last failing review, the repetitions count only the passes that followed it |
| `SpacedRepetition.PerfectRunRaisesEase` | src/lib/algorithms/spacedRepetition.ts:16-17 | n perfect reviews raise the ease by exactly 0.1 each |
| `SpacedRepetition.ThreePerfectReviews` | src/lib/algorithms/spacedRepetition.ts:16-30 | from the default record, three quality-5 reviews give ease 2.6, 2.7, 2.8 and intervals 1, 6, 17 |
| `SpacedRepetition.FailedReviewExample` | src/lib/algorithms/spacedRepetition.ts:16-34 | quality 2 on {2 repetitions, interval 6, ease 2.6} gives 0 repetitions, interval 1, ease 2.28 |
| `FlashcardStorage.PriorEase` | src/lib/storage/flashcardStore.ts:29 | a missing record or a stored ease of 0 counts as 2.5; any other stored ease is used as it is |
| `FlashcardStorage.PriorRepetitions` | src/lib/storage/flashcardStore.ts:35 | a missing record counts as 0 repetitions; otherwise the stored count is used |
| `FlashcardStorage.PriorInterval` | src/lib/storage/flashcardStore.ts:40 | a missing record or a stored interval of 0 counts as 1 day; any other stored interval is used as it is; the result is at least 1 unless a negative interval was stored |
| `FlashcardStorage.Due` | src/lib/storage/flashcardStore.ts:69-72 | a card without a record is due; a card with one is due exactly when its next date is not after now |
| `FlashcardStorage.Mastered` | src/lib/storage/flashcardStore.ts:76-79 | only a card with a record can be mastered, and it is exactly when it has at least 3 repetitions and an interval of at least 21 days |
| `FlashcardStorage.NextReview` | src/lib/storage/flashcardStore.ts:20-51 | the card id is kept or is empty; a rating below 3 gives 0 repetitions, interval 1, due now and ease max(1.3, prior − 0.2); a pass gives prior repetitions + 1, ease max(1.3, prior + 0.1 − (5 − r)·0.08) and the next date `now + interval` days; well-formedness is kept |
| `FlashcardStorage.Lookup` | src/lib/storage/flashcardStore.ts:58 | `reviews[id]` is absent exactly when the id has no record, else it is that record |
| `FlashcardStorage.Reviewed` | src/lib/storage/flashcardStore.ts:57-60 | the record `reviewCard` stores carries the card id it is stored under |
| `FlashcardStorage.FlashcardStore.constructor` | src/lib/storage/flashcardStore.ts:56 | the store starts with no records |
| `FlashcardStorage.FlashcardStore.ReviewCard` | src/lib/storage/flashcardStore.ts:57-64 | only the reviewed card's entry is replaced, by the update of its previous record; every stored record stays filed under its own id and well formed |
| `FlashcardStorage.FlashcardStore.GetNextReviewDate` | src/lib/storage/flashcardStore.ts:65 | null exactly when the card has no record, else its stored next date |
| `FlashcardStorage.FlashcardStore.GetDueCards` | src/lib/storage/flashcardStore.ts:66-73 | the ids with no record or a date not after now, in input order and multiplicity; unreviewed ids are always included |
| `FlashcardStorage.FlashcardStore.GetMasteredCards` | src/lib/storage/flashcardStore.ts:74-80 | the ids whose record has at least 3 repetitions and an interval of at least 21, in input order and multiplicity; never an unreviewed id |
| `FlashcardStorage.DueAfterReview` | src/lib/storage/flashcardStore.ts:24-42 | a failed card is due at once; a passed card is not due at now, and becomes due exactly once its new interval has elapsed |
| `FlashcardStorage.PassingInterval` | src/lib/storage/flashcardStore.ts:38-40 | passing intervals are 1 on the first success, 6 on the second, else the prior interval (0 read as 1) times the new ease, rounded |
| `FlashcardStorage.UnreviewedCard` | src/lib/storage/flashcardStore.ts:66-80 | a card without a record is due and not mastered |
| `FlashcardStorage.ReviewIsLocal` | src/lib/storage/flashcardStore.ts:61-63 | reviewing one card changes neither the due nor the mastered status of any other card |
| `FlashcardStorage.ReviewAll` | src/lib/storage/flashcardStore.ts:20-51 | after at least one rating there is a record, and records stay well formed |
| `FlashcardStorage.FourPerfectReviewsToMastery` | src/lib/storage/flashcardStore.ts:34-40 | perfect ratings give intervals 1, 6, 17, 49: a new card is not mastered after three of them and is after four |
| `FlashcardStorage.FailureLosesMastery` | src/lib/storage/flashcardStore.ts:24-35 | after the last failing rating the repetitions count only later passes, so the card is out of mastery until three more |
| `FlashcardStorage.PassingRunCounts` | src/lib/storage/flashcardStore.ts:35 | n passing ratings leave a record whose repetitions are the stored count, or 0 for a card never reviewed, plus n |
| `SchedulerVariants.StoreUpdate` | src/lib/storage/flashcardStore.ts:57-60 | the store's update filed under the scheduler record's card id |
| `SchedulerVariants.DueAgrees` | src/lib/algorithms/spacedRepetition.ts:49-52 | for corresponding records the scheduler's `isDue` and the store's due filter agree |
| `SchedulerVariants.PerfectRatingAgrees` | src/lib/storage/flashcardStore.ts:34-42 | on rating 5 both updates give corresponding records |
| `SchedulerVariants.PassPathAgrees` | src/lib/storage/flashcardStore.ts:35-39 | on any pass both count repetitions alike and give the same first two intervals and dates |
| `SchedulerVariants.StoreEaseIsGentler` | src/lib/storage/flashcardStore.ts:29-34 | for ratings 1 to 5 the store's new ease is never below the scheduler's, and equal at 5 |
| `SchedulerVariants.StoreEaseDiffers` | src/lib/storage/flashcardStore.ts:34 | at ratings 3 and 4 above the floor the store's ease is strictly higher |
| `SchedulerVariants.FailurePoliciesDiffer` | src/lib/storage/flashcardStore.ts:24-31 | on failure both reset to interval 1 and 0 repetitions; the scheduler makes the card due a day later, the store makes it due at once |
| `Recommendation.InProgress` | src/lib/algorithms/recommendation.ts:39 | an entry passes the module filter exactly when its status is `in_progress` |
| `Recommendation.Weak` | src/lib/algorithms/recommendation.ts:52 | a topic passes the review filter exactly when its mastery is below 70 |
| `Recommendation.StatusOf` | src/lib/algorithms/recommendation.ts:67 | a module's status is absent exactly when no entry has its id, and otherwise is the status of such an entry |
| `Recommendation.NotCompleted` | src/lib/algorithms/recommendation.ts:67 | a module with no progress entry passes the `find` test; one with an entry passes exactly when its status is other than `completed` |
| `Recommendation.Truthy` | src/lib/algorithms/recommendation.ts:69 | `if (nextModule)` holds exactly when a module was found and its id is not the empty string |
| `Recommendation.PhaseModules` | src/lib/algorithms/recommendation.ts:65 | `flatMap` over the phases holds exactly the modules of the path's phases |
| `Recommendation.SortByPriority` | src/lib/algorithms/recommendation.ts:86 | the sort result is ordered by non-increasing priority and is a permutation of its input |
| `Recommendation.Insert` | src/lib/algorithms/recommendation.ts:86 | inserting adds exactly one item to the multiset |
| `Recommendation.InsertKeepsOrder` | src/lib/algorithms/recommendation.ts:86 | inserting into a priority-ordered list keeps it ordered and adds no item other than the one inserted |
| `Recommendation.SortKeepsSorted` | src/lib/algorithms/recommendation.ts:86 | sorting an already ordered list leaves it unchanged |
| `Recommendation.FlashcardRule` | src/lib/algorithms/recommendation.ts:29-36 | a flashcard item with priority 10 and route `/flashcards/review` exactly when some card is due |
| `Recommendation.ModuleRule` | src/lib/algorithms/recommendation.ts:38-49 | the continue-module item is a module item of priority 8 |
| `Recommendation.ModuleRuleSpec` | src/lib/algorithms/recommendation.ts:38-49 | the priority-8 module item exists iff some module is in progress, and routes to the first such module in entry order |
| `Recommendation.ReviewRule` | src/lib/algorithms/recommendation.ts:51-62 | the weak-topic item is a review item of priority 7 |
| `Recommendation.ReviewRuleSpec` | src/lib/algorithms/recommendation.ts:51-62 | the review item exists iff some topic has mastery below 70; it counts those topics and routes to the first |
| `Recommendation.PathRule` | src/lib/algorithms/recommendation.ts:64-77 | the path item is a module item of priority 6 |
| `Recommendation.PathRuleSpec` | src/lib/algorithms/recommendation.ts:64-77 | with no current path there is no path item; otherwise `find` stops at the first module, phase by phase, that has no progress or is not completed, such a module exists iff one of the path's modules qualifies, and the path item exists iff one was found and its id is not the empty string (the `if (nextModule)` truthiness test); the item then routes to that module |
| `Recommendation.EmptyModuleIdStopsPathRule` | src/lib/algorithms/recommendation.ts:64-77 | a path whose first unfinished module has the id "" gets no path item, even when a later module is unfinished; with a non-empty id it does |
| `Recommendation.ListFalling` | src/lib/algorithms/recommendation.ts:27-84 | whatever rules fire, items pushed at priorities 10, 8, 7, 6 and then 5 form a list of 1 to 5 items in strictly falling priority |
| `Recommendation.ListKinds` | src/lib/algorithms/recommendation.ts:29-84 | in the pushed list the interview item is last and the only one of its kind; a flashcard item appears iff the flashcard rule fired, and then first |
| `Recommendation.CandidatesFalling` | src/lib/algorithms/recommendation.ts:27-86 | between 1 and 5 items are pushed, in strictly falling priority, so the sort leaves them in push order |
| `Recommendation.CandidateKinds` | src/lib/algorithms/recommendation.ts:79-84 | there is exactly one interview item, the last, with priority 5; there is a flashcard item iff a card is due, and it comes first |
| `Recommendation.Candidates` | src/lib/algorithms/recommendation.ts:27-84 | the pushed list holds 1 to 5 items and always ends with the interview item |
| `Recommendation.GenerateRecommendations` | src/lib/algorithms/recommendation.ts:22-87 | the result is the items of the rules that fire, in rule order, 1 to 5 of them, in strictly falling priority; the path rule fires only for a non-empty module id |
| `ProgressStorage.IsModuleCompleted` | src/components/learn/ModuleCard.tsx:43 | a module is completed exactly when its total is positive and all of its lessons are done |
| `ProgressStorage.Clamp` | src/lib/storage/progressStore.ts:54 | the stored mastery lies in [0, 100]: values inside are kept, values below become 0, values above become 100 |
| `ProgressStorage.ClampIdempotent` | src/lib/storage/progressStore.ts:54 | clamping a clamped value changes nothing |
| `ProgressStorage.ClampMonotone` | src/lib/storage/progressStore.ts:54 | clamping keeps the order of two values |
| `ProgressStorage.StreakAfter` | src/lib/storage/progressStore.ts:64-80 | a session on the last study day changes nothing; on the next day it extends the streak by one; otherwise it resets to 1; the last day becomes today and study time is untouched |
| `ProgressStorage.StreakKeepsValid` | src/lib/storage/progressStore.ts:64-80 | the streak rule keeps "a streak exists iff a day was studied" and leaves a streak of at least one day |
| `ProgressStorage.StreakIdempotent` | src/lib/storage/progressStore.ts:68 | updating the streak twice on one day is updating it once |
| `ProgressStorage.GapResetsStreak` | src/lib/storage/progressStore.ts:70-71 | after a missed day the streak restarts at 1 |
| `ProgressStorage.StudyOn` | src/lib/storage/progressStore.ts:64-80 | a run of sessions keeps the study time and ends with the last session's day as the last study date |
| `ProgressStorage.ConsecutiveDaysCount` | src/lib/storage/progressStore.ts:70-79 | sessions on n consecutive days right after the last study day lengthen the streak by n |
| `ProgressStorage.SameDaySessions` | src/lib/storage/progressStore.ts:68 | any number of sessions on one day counts that day once |
| `ProgressStorage.ProgressStore.constructor` | src/lib/storage/progressStore.ts:34-41 | the initial state: no path, empty maps, no study time, streak 0, no last study date |
| `ProgressStorage.ProgressStore.SetCurrentPath` | src/lib/storage/progressStore.ts:42 | only the current path changes |
| `ProgressStorage.ProgressStore.UpdateModuleProgress` | src/lib/storage/progressStore.ts:43-49 | only the given module's entry is set to (completed, total); the path, the masteries and the statistics are unchanged |
| `ProgressStorage.ProgressStore.UpdateKnowledgeMastery` | src/lib/storage/progressStore.ts:50-56 | only the given point's mastery is set, to the clamped value, so every stored mastery stays in [0, 100] |
| `ProgressStorage.ProgressStore.AddStudyTime` | src/lib/storage/progressStore.ts:57-63 | the total grows by exactly the minutes given; streak, last date and all other fields are unchanged |
| `ProgressStorage.ProgressStore.UpdateConsecutiveDays` | src/lib/storage/progressStore.ts:64-80 | the statistics follow the streak rule for today's UTC date, compared with the date 24 hours earlier; nothing else changes |
| `SettingsStorage.DefaultSettings` | src/lib/storage/settingsStore.ts:17-22 | the defaults are the system theme, a goal of 30 minutes a day, notifications on and sound effects on |
| `SettingsStorage.Pick` | src/lib/storage/settingsStore.ts:30 | a field given in the update wins; a field left out keeps its value |
| `SettingsStorage.Merge` | src/lib/storage/settingsStore.ts:28-31 | each field present in the update is overwritten, each absent field keeps its old value |
| `SettingsStorage.MergeNoChange` | src/lib/storage/settingsStore.ts:28-31 | an empty update leaves the settings unchanged |
| `SettingsStorage.MergeIdempotent` | src/lib/storage/settingsStore.ts:28-31 | applying one update twice is applying it once |
| `SettingsStorage.MergeThen` | src/lib/storage/settingsStore.ts:28-31 | two updates in a row equal one combined update in which the later wins |
| `SettingsStorage.FullUpdateOverwrites` | src/lib/storage/settingsStore.ts:28-31 | an update giving every field decides the result whatever the old settings |
| `SettingsStorage.SettingsStore.constructor` | src/lib/storage/settingsStore.ts:17-27 | the store starts from the defaults: system theme, goal 30, notifications and sound on |
| `SettingsStorage.SettingsStore.UpdateSettings` | src/lib/storage/settingsStore.ts:28-31 | the new settings are the old ones merged with the update |
| `SettingsStorage.SettingsStore.ResetSettings` | src/lib/storage/settingsStore.ts:32 | from any state the settings become the defaults |

## Left out

- React pages and components, routing and UI state are not modelled. The
  one rule taken from them is "a module is completed when completed equals
  a positive total" (`src/components/learn/ModuleCard.tsx:43`). It is
  `ProgressStorage.IsModuleCompleted`, which no store action uses.
- Persistence is not modelled: the zustand `persist` middleware, the
  storage keys and the JSON import and export.
- Clock reads are not modelled. `new Date()` is replaced by the `now`
  parameter. `setDate` on local time, and so daylight-saving shifts, is
  replaced by adding whole 24-hour days.
- Dates are compared as numbers. The source compares ISO-8601 strings
  (`nextReviewDate <= now`), which order the same way when both are in one
  format.
- Floating point is not modelled. Ease arithmetic is exact in hundredths.
  Binary rounding of repeated `+ 0.1`, NaN and non-integer ratings are
  left out.
- Mastery values are exact reals. Study minutes and module counts are
  integers.
- Recommendation texts are not modelled: the reason strings and action
  labels. Each reason is a tag plus the count it shows.
- Each progress entry's `completedAt` is not modelled. Integer-like keys,
  which `Object.entries` lists first, are assumed already in listing order.
- `Recommendation.SortByPriority`: states ordering, permutation and
  identity on ordered input, not the stability of `Array.prototype.sort`.
  The items reaching the sort are already in strictly falling priority, so
  stability never matters here.
- `FlashcardStorage.Due`: card ids are assumed never to name an
  `Object.prototype` member such as `constructor`, `toString` or
  `__proto__`, and the same holds for module and topic ids. The model's
  records are maps without inherited keys, while `reviews[id]` on a plain
  object finds inherited members. For such an id `getDueCards` would not
  list an unreviewed card as due, but `FlashcardStorage.Due` does.
- `SettingsStorage.Merge`: a key present in a partial update with the value
  `undefined` is treated as absent. In the source the spread would store
  `undefined`.
- Zustand's subscription, `set`/`get` plumbing and re-rendering are not
  modelled. Each action is a single atomic update of the store's fields.
