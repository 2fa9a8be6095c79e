/** The study suggestions of src/lib/algorithms/recommendation.ts: up to five
    rules, each adding at most one suggestion, then a sort by priority,
    highest first. */
module Recommendation {
  import opened Seqs

  datatype Kind = Flashcard | Module | Review | Interview

  /** The displayed reason: which rule fired, and the count it shows. */
  datatype Reason =
    | DueFlashcards(count: int)
    | ContinueModule
    | WeakTopics(count: int)
    | ContinuePath
    | PracticeInterview

  datatype Recommendation = Recommendation(kind: Kind, priority: int, reason: Reason, route: string)

  /** One entry of `moduleProgress` and of `topicProgress`, in the order
      `Object.entries` lists them. */
  datatype ModuleEntry = ModuleEntry(id: string, status: string)
  datatype TopicEntry = TopicEntry(id: string, mastery: real)

  datatype UserProgress = UserProgress(
    currentPathId: Option<string>,
    moduleProgress: seq<ModuleEntry>,
    topicProgress: seq<TopicEntry>)

  datatype Phase = Phase(modules: seq<string>)
  datatype LearningPath = LearningPath(id: string, phases: seq<Phase>)

  function ModuleRoute(id: string): string
  {
    "/learn/module/" + id
  }

  const FlashcardRoute: string := "/flashcards/review"
  const InterviewRoute: string := "/interview"
  const InterviewItem: Recommendation := Recommendation(Interview, 5, PracticeInterview, InterviewRoute)

  /** The module rule's filter: the entry's status is `in_progress`. */
  predicate InProgress(e: ModuleEntry)
    ensures e.status == "in_progress" ==> InProgress(e)
    ensures e.status != "in_progress" ==> !InProgress(e)
  {
    e.status == "in_progress"
  }

  /** The review rule's filter: the topic's mastery is below 70. */
  predicate Weak(t: TopicEntry)
    ensures t.mastery < 70.0 ==> Weak(t)
    ensures t.mastery >= 70.0 ==> !Weak(t)
  {
    t.mastery < 70.0
  }

  /** `progress.moduleProgress[m]`: the status recorded for module `m`. */
  function StatusOf(entries: seq<ModuleEntry>, m: string): (r: Option<string>)
    ensures r.None? <==> forall k :: 0 <= k < |entries| ==> entries[k].id != m
    ensures r.Some? ==> exists k :: 0 <= k < |entries| && entries[k] == ModuleEntry(m, r.value)
  {
    var e := FindFirst(entries, (e: ModuleEntry) => e.id == m);
    if e.Some? then Some(e.value.status) else None
  }

  /** The path rule's test: module `m` has no progress entry or is not
      completed. */
  predicate NotCompleted(entries: seq<ModuleEntry>, m: string)
    ensures (forall k :: 0 <= k < |entries| ==> entries[k].id != m) ==> NotCompleted(entries, m)
    ensures StatusOf(entries, m).Some? ==>
      (NotCompleted(entries, m) <==> StatusOf(entries, m).value != "completed")
  {
    var s := StatusOf(entries, m);
    s.None? || s.value != "completed"
  }

  /** `phases.flatMap((p) => p.modules)`: the modules of all phases, phase
      by phase. */
  function PhaseModules(phases: seq<Phase>): (ms: seq<string>)
    ensures forall m :: m in ms <==> exists i :: 0 <= i < |phases| && m in phases[i].modules
  {
    if phases == [] then []
    else
      var rest := PhaseModules(phases[1..]);
      assert forall m :: m in rest <==> exists i :: 1 <= i < |phases| && m in phases[i].modules by {
        forall m | m in rest ensures exists i :: 1 <= i < |phases| && m in phases[i].modules {
          var i :| 0 <= i < |phases[1..]| && m in phases[1..][i].modules;
          assert m in phases[i + 1].modules;
        }
        forall m | exists i :: 1 <= i < |phases| && m in phases[i].modules ensures m in rest {
          var i :| 1 <= i < |phases| && m in phases[i].modules;
          assert m in phases[1..][i - 1].modules;
        }
      }
      phases[0].modules + rest
  }

  /** The truthiness test `if (nextModule)` on what `find` returned: an
      element was found and it is not the empty string. */
  predicate Truthy(found: Option<string>)
    ensures found.None? ==> !Truthy(found)
    ensures found.Some? ==> (Truthy(found) <==> found.value != "")
  {
    found.Some? && found.value != ""
  }

  /** `NotCompleted` as the callback handed to `find`. */
  function NotCompletedIn(entries: seq<ModuleEntry>): string -> bool
  {
    m => NotCompleted(entries, m)
  }

  /** Every priority is at least the priority of every later item. */
  predicate SortedByPriority(s: seq<Recommendation>)
  {
    forall i, j :: 0 <= i < j < |s| ==> s[i].priority >= s[j].priority
  }

  /** Inserts `x` before the first item whose priority is not above its
      own, so ahead of the items of equal priority. */
  function Insert(x: Recommendation, s: seq<Recommendation>): (r: seq<Recommendation>)
    ensures multiset(r) == multiset(s) + multiset{x}
  {
    if s == [] || x.priority >= s[0].priority then [x] + s
    else
      assert s == [s[0]] + s[1..];
      [s[0]] + Insert(x, s[1..])
  }

  /** Inserting into an ordered sequence keeps it ordered, and adds no item
      but `x`. */
  lemma {:induction false} InsertKeepsOrder(x: Recommendation, s: seq<Recommendation>)
    requires SortedByPriority(s)
    ensures SortedByPriority(Insert(x, s))
    ensures forall y :: y in Insert(x, s) ==> y == x || y in s
  {
    if s != [] && x.priority < s[0].priority {
      var tail := Insert(x, s[1..]);
      InsertKeepsOrder(x, s[1..]);
      assert Insert(x, s) == [s[0]] + tail;
      forall k | 0 <= k < |tail| ensures s[0].priority >= tail[k].priority {
        assert tail[k] in tail;
        if tail[k] != x {
          assert tail[k] in s[1..];
        }
      }
    }
  }

  /** `Array.prototype.sort` with the comparator `b.priority - a.priority`:
      the items reordered by non-increasing priority. */
  function SortByPriority(s: seq<Recommendation>): (r: seq<Recommendation>)
    ensures SortedByPriority(r)
    ensures multiset(r) == multiset(s)
  {
    if s == [] then []
    else
      assert s == [s[0]] + s[1..];
      InsertKeepsOrder(s[0], SortByPriority(s[1..]));
      Insert(s[0], SortByPriority(s[1..]))
  }

  /** Sorting a sequence already ordered by priority leaves it unchanged. */
  lemma {:induction false} SortKeepsSorted(s: seq<Recommendation>)
    requires SortedByPriority(s)
    ensures SortByPriority(s) == s
  {
    if s != [] {
      SortKeepsSorted(s[1..]);
      assert s == [s[0]] + s[1..];
    }
  }

  /** The flashcard rule: cards are due for review. */
  function FlashcardRule(dueFlashcardsCount: int): (o: Option<Recommendation>)
    ensures o.Some? <==> dueFlashcardsCount > 0
    ensures o.Some? ==> o.value.kind == Flashcard && o.value.priority == 10 && o.value.route == FlashcardRoute
  {
    if dueFlashcardsCount > 0
    then Some(Recommendation(Flashcard, 10, DueFlashcards(dueFlashcardsCount), FlashcardRoute))
    else None
  }

  /** The continue-module rule: the first module listed as in progress. */
  function ModuleRule(entries: seq<ModuleEntry>): (o: Option<Recommendation>)
    ensures o.Some? ==> o.value.kind == Module && o.value.priority == 8
  {
    var inProgressModules := Filter(entries, InProgress);
    if |inProgressModules| > 0
    then Some(Recommendation(Module, 8, ContinueModule, ModuleRoute(inProgressModules[0].id)))
    else None
  }

  /** The module rule fires exactly when some module is in progress, and
      points at the first one in entry order. */
  lemma ModuleRuleSpec(entries: seq<ModuleEntry>)
    ensures var o := ModuleRule(entries);
      && (o.Some? <==> exists k :: 0 <= k < |entries| && InProgress(entries[k]))
      && (o.Some? ==>
            o.value == Recommendation(Module, 8, ContinueModule, ModuleRoute(entries[FirstIndex(entries, InProgress)].id)))
  {
  }

  /** The weak-topic rule: how many topics are below 70, and the first one. */
  function ReviewRule(topics: seq<TopicEntry>): (o: Option<Recommendation>)
    ensures o.Some? ==> o.value.kind == Review && o.value.priority == 7
  {
    var weakTopics := Filter(topics, Weak);
    if |weakTopics| > 0
    then Some(Recommendation(Review, 7, WeakTopics(|weakTopics|), ModuleRoute(weakTopics[0].id)))
    else None
  }

  /** The review rule fires exactly when some topic is weak; it counts the
      weak topics and points at the first one. */
  lemma ReviewRuleSpec(topics: seq<TopicEntry>)
    ensures var o := ReviewRule(topics);
      && (o.Some? <==> exists k :: 0 <= k < |topics| && Weak(topics[k]))
      && (o.Some? ==>
            && o.value.reason == WeakTopics(|Filter(topics, Weak)|)
            && o.value.route == ModuleRoute(topics[FirstIndex(topics, Weak)].id))
  {
  }

  /** The learning-path rule: the first module of the current path, phase by
      phase, that is not completed. */
  function PathRule(entries: seq<ModuleEntry>, currentPath: Option<LearningPath>): (o: Option<Recommendation>)
    ensures o.Some? ==> o.value.kind == Module && o.value.priority == 6
  {
    if currentPath.Some? then
      var nextModule := FindFirst(PhaseModules(currentPath.value.phases), NotCompletedIn(entries));
      if Truthy(nextModule)
      then Some(Recommendation(Module, 6, ContinuePath, ModuleRoute(nextModule.value)))
      else None
    else None
  }

  /** The path rule looks for the first module of the current path, phase by
      phase, that has no progress entry or is not completed; there is one
      exactly when some module of the path qualifies. The rule fires when
      that module's id is a non-empty string, and points at it. */
  lemma PathRuleSpec(entries: seq<ModuleEntry>, currentPath: Option<LearningPath>)
    ensures var o := PathRule(entries, currentPath);
      && (currentPath.None? ==> o.None?)
      && (currentPath.Some? ==>
            var ms := PhaseModules(currentPath.value.phases);
            var j := FirstIndex(ms, NotCompletedIn(entries));
            && (j < |ms| <==> exists m :: m in ms && NotCompleted(entries, m))
            && (o.Some? <==> j < |ms| && ms[j] != "")
            && (o.Some? ==> o.value == Recommendation(Module, 6, ContinuePath, ModuleRoute(ms[j]))))
  {
    if currentPath.Some? {
      var ms := PhaseModules(currentPath.value.phases);
      var j := FirstIndex(ms, NotCompletedIn(entries));
      if j < |ms| {
        assert NotCompletedIn(entries)(ms[j]);
        assert ms[j] in ms;
      }
    }
  }

  /** `find` stops at an empty module id, which `if (nextModule)` rejects, so
      the rule does not go on to the next unfinished module. */
  lemma EmptyModuleIdStopsPathRule()
    ensures PathRule([], Some(LearningPath("p", [Phase(["", "m1"])]))) == None
    ensures PathRule([], Some(LearningPath("p", [Phase(["m0", "m1"])]))).Some?
  {
    var ms := PhaseModules([Phase(["", "m1"])]);
    assert ms == ["", "m1"] by {
      assert PhaseModules([Phase(["", "m1"])][1..]) == [];
    }
    assert NotCompletedIn([])(ms[0]);
    var ms' := PhaseModules([Phase(["m0", "m1"])]);
    assert ms' == ["m0", "m1"] by {
      assert PhaseModules([Phase(["m0", "m1"])][1..]) == [];
    }
    assert NotCompletedIn([])(ms'[0]);
  }

  /** The suggestion of a rule that fired, or nothing. */
  function Opt(o: Option<Recommendation>): (r: seq<Recommendation>)
    ensures |r| <= 1
    ensures forall x :: x in r <==> o == Some(x)
  {
    if o.Some? then [o.value] else []
  }

  /** The list the rules build from their outcomes, in the order they run:
      due flashcards, a module in progress, weak topics, the current path,
      and always practice. */
  function CandidateList(f: Option<Recommendation>, m: Option<Recommendation>,
                         r: Option<Recommendation>, p: Option<Recommendation>): seq<Recommendation>
  {
    Opt(f) + Opt(m) + Opt(r) + Opt(p) + [InterviewItem]
  }

  /** What the rules produce for the given progress, path and due count. */
  function Candidates(progress: UserProgress, currentPath: Option<LearningPath>, dueFlashcardsCount: int): (rs: seq<Recommendation>)
    ensures 1 <= |rs| <= 5
    ensures rs[|rs| - 1] == InterviewItem
  {
    CandidateList(FlashcardRule(dueFlashcardsCount), ModuleRule(progress.moduleProgress),
                  ReviewRule(progress.topicProgress), PathRule(progress.moduleProgress, currentPath))
  }

  /** The kinds and priorities the four optional rules give their items. */
  predicate RuleOutcomes(f: Option<Recommendation>, m: Option<Recommendation>,
                         r: Option<Recommendation>, p: Option<Recommendation>)
  {
    && (f.Some? ==> f.value.kind == Flashcard && f.value.priority == 10)
    && (m.Some? ==> m.value.kind == Module && m.value.priority == 8)
    && (r.Some? ==> r.value.kind == Review && r.value.priority == 7)
    && (p.Some? ==> p.value.kind == Module && p.value.priority == 6)
  }

  /** Each priority is greater than every later one. */
  predicate StrictlyFalling(s: seq<Recommendation>)
  {
    forall i, j :: 0 <= i < j < |s| ==> s[i].priority > s[j].priority
  }

  /** Appending the outcome of a rule whose priority is below everything
      already pushed keeps the list strictly falling. */
  lemma PushFalling(s: seq<Recommendation>, o: Option<Recommendation>, bound: int)
    requires StrictlyFalling(s)
    requires forall y :: y in s ==> y.priority > bound
    requires o.Some? ==> o.value.priority == bound
    ensures StrictlyFalling(s + Opt(o))
    ensures forall y :: y in s + Opt(o) ==> y.priority >= bound
  {
    var t := s + Opt(o);
    forall i, j | 0 <= i < j < |t| ensures t[i].priority > t[j].priority {
      if j >= |s| {
        assert t[i] in s;
      }
    }
  }

  /** Items pushed at priorities 10, 8, 7, 6 and 5 come out strictly
      falling. */
  lemma ListFalling(f: Option<Recommendation>, m: Option<Recommendation>,
                    r: Option<Recommendation>, p: Option<Recommendation>)
    requires RuleOutcomes(f, m, r, p)
    ensures var rs := CandidateList(f, m, r, p);
      && 1 <= |rs| <= 5
      && StrictlyFalling(rs)
  {
    PushFalling([], f, 10);
    var s1 := [] + Opt(f);
    assert s1 == Opt(f);
    PushFalling(s1, m, 8);
    var s2 := s1 + Opt(m);
    PushFalling(s2, r, 7);
    var s3 := s2 + Opt(r);
    PushFalling(s3, p, 6);
    var s4 := s3 + Opt(p);
    PushFalling(s4, Some(InterviewItem), 5);
    assert Opt(Some(InterviewItem)) == [InterviewItem];
  }

  /** The shape of the list: at most one flashcard item, first; then module
      and review items only; then the one interview item. */
  lemma ListKinds(f: Option<Recommendation>, m: Option<Recommendation>,
                  r: Option<Recommendation>, p: Option<Recommendation>)
    requires RuleOutcomes(f, m, r, p)
    ensures var rs := CandidateList(f, m, r, p);
      && rs[|rs| - 1] == InterviewItem
      && (forall i :: 0 <= i < |rs| && rs[i].kind == Interview ==> i == |rs| - 1)
      && ((exists i :: 0 <= i < |rs| && rs[i].kind == Flashcard) <==> f.Some?)
      && (f.Some? ==> rs[0] == f.value)
  {
    var pushed := Opt(f) + Opt(m) + Opt(r) + Opt(p);
    var rs := CandidateList(f, m, r, p);
    forall i | 0 <= i < |rs| - 1 ensures rs[i].kind != Interview && (rs[i].kind == Flashcard ==> f.Some?) {
      assert rs[i] == pushed[i];
      assert rs[i] in pushed;
    }
    if f.Some? {
      assert rs[0] == Opt(f)[0];
    }
  }

  /** The rules fire in strictly falling priority (10, 8, 7, 6, 5), so the
      final sort has nothing to reorder. */
  lemma CandidatesFalling(progress: UserProgress, currentPath: Option<LearningPath>, dueFlashcardsCount: int)
    ensures var rs := Candidates(progress, currentPath, dueFlashcardsCount);
      && 1 <= |rs| <= 5
      && StrictlyFalling(rs)
      && SortByPriority(rs) == rs
  {
    ListFalling(FlashcardRule(dueFlashcardsCount), ModuleRule(progress.moduleProgress),
                ReviewRule(progress.topicProgress), PathRule(progress.moduleProgress, currentPath));
    SortKeepsSorted(Candidates(progress, currentPath, dueFlashcardsCount));
  }

  /** Exactly one practice-interview item is produced, always the last and
      with priority 5; a flashcard item is produced exactly when some card
      is due, and then it comes first. */
  lemma CandidateKinds(progress: UserProgress, currentPath: Option<LearningPath>, dueFlashcardsCount: int)
    ensures var rs := Candidates(progress, currentPath, dueFlashcardsCount);
      && rs[|rs| - 1] == InterviewItem && InterviewItem.priority == 5
      && (forall i :: 0 <= i < |rs| && rs[i].kind == Interview ==> i == |rs| - 1)
      && ((exists i :: 0 <= i < |rs| && rs[i].kind == Flashcard) <==> dueFlashcardsCount > 0)
      && (dueFlashcardsCount > 0 ==>
            rs[0] == Recommendation(Flashcard, 10, DueFlashcards(dueFlashcardsCount), FlashcardRoute))
  {
    ListKinds(FlashcardRule(dueFlashcardsCount), ModuleRule(progress.moduleProgress),
              ReviewRule(progress.topicProgress), PathRule(progress.moduleProgress, currentPath));
  }

  /** A rule's step of `generateRecommendations`: it pushes its item when it
      fires and leaves the list alone otherwise. */
  lemma PushStep(pushed: seq<Recommendation>, recommendations: seq<Recommendation>, o: Option<Recommendation>)
    requires o.Some? ==> recommendations == pushed + [o.value]
    requires o.None? ==> recommendations == pushed
    ensures recommendations == pushed + Opt(o)
  {
    if o.None? {
      assert pushed + [] == pushed;
    }
  }

  /** `generateRecommendations`: the suggestions of the rules that fire, in
      priority order. */
  method GenerateRecommendations(progress: UserProgress, currentPath: Option<LearningPath>, dueFlashcardsCount: int)
    returns (recommendations: seq<Recommendation>)
    ensures recommendations == Candidates(progress, currentPath, dueFlashcardsCount)
    ensures 1 <= |recommendations| <= 5
    ensures StrictlyFalling(recommendations)
  {
    recommendations := [];

    if dueFlashcardsCount > 0 {
      recommendations := recommendations + [Recommendation(Flashcard, 10, DueFlashcards(dueFlashcardsCount), FlashcardRoute)];
    }
    assert recommendations == Opt(FlashcardRule(dueFlashcardsCount));

    ghost var pushed := recommendations;
    var inProgressModules := Filter(progress.moduleProgress, InProgress);
    if |inProgressModules| > 0 {
      recommendations := recommendations + [Recommendation(Module, 8, ContinueModule, ModuleRoute(inProgressModules[0].id))];
    }
    PushStep(pushed, recommendations, ModuleRule(progress.moduleProgress));

    pushed := recommendations;
    var weakTopics := Filter(progress.topicProgress, Weak);
    if |weakTopics| > 0 {
      recommendations := recommendations + [Recommendation(Review, 7, WeakTopics(|weakTopics|), ModuleRoute(weakTopics[0].id))];
    }
    PushStep(pushed, recommendations, ReviewRule(progress.topicProgress));

    pushed := recommendations;
    if currentPath.Some? {
      var allModules := PhaseModules(currentPath.value.phases);
      var nextModule := FindFirst(allModules, NotCompletedIn(progress.moduleProgress));
      if Truthy(nextModule) {
        recommendations := recommendations + [Recommendation(Module, 6, ContinuePath, ModuleRoute(nextModule.value))];
      }
    }
    PushStep(pushed, recommendations, PathRule(progress.moduleProgress, currentPath));

    recommendations := recommendations + [InterviewItem];
    assert recommendations == Candidates(progress, currentPath, dueFlashcardsCount);

    CandidatesFalling(progress, currentPath, dueFlashcardsCount);
    recommendations := SortByPriority(recommendations);
  }
}
