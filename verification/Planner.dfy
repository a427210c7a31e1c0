// app/domain/planning/planner.py as it runs: the ranking, and the loops that pack a week.
module Planner {
  import opened Wrappers
  import opened PlannerSpec
  import Q = QuestionPlannerSpec

  // Python's `sorted(..., key=score, reverse=True)`: `order` says where each element came from, and equal
  // scores keep their order.
  ghost predicate Sorted<T(!new)>(items: seq<T>, score: T -> real, ranked: seq<T>, order: seq<nat>) {
    && |order| == |ranked|
    && (forall i :: 0 <= i < |order| ==> order[i] < |items| && ranked[i] == items[order[i]])
    && (forall i, j :: 0 <= i < j < |ranked| ==> InOrder(score, ranked[i], order[i], ranked[j], order[j]))
  }

  // The larger score first, and among equal ones the one that came first.
  predicate InOrder<T>(score: T -> real, a: T, placeA: nat, b: T, placeB: nat) {
    score(a) > score(b) || (score(a) == score(b) && placeA < placeB)
  }

  // The first `k` items, ranked.
  ghost predicate RankedFirst<T(!new)>(items: seq<T>, score: T -> real, ranked: seq<T>, order: seq<nat>, k: nat) {
    && k <= |items| && |ranked| == k && Sorted(items, score, ranked, order)
    && (forall i :: 0 <= i < |order| ==> order[i] < k)
    && multiset(ranked) == multiset(items[..k])
  }

  // Behind every score that is not smaller.
  method PlaceFor<T>(ranked: seq<T>, score: T -> real, x: T) returns (p: nat)
    ensures p <= |ranked| && (p > 0 ==> score(ranked[p - 1]) >= score(x))
    ensures forall i :: p <= i < |ranked| ==> score(ranked[i]) < score(x)
  {
    p := |ranked|;
    while p > 0 && score(ranked[p - 1]) < score(x)
      invariant p <= |ranked| && forall i :: p <= i < |ranked| ==> score(ranked[i]) < score(x)
    {
      p := p - 1;
    }
  }

  method Ranked<T(!new)>(items: seq<T>, score: T -> real) returns (ranked: seq<T>, ghost order: seq<nat>)
    ensures Sorted(items, score, ranked, order) && |ranked| == |items| && multiset(ranked) == multiset(items)
  {
    ranked, order := [], [];
    for k := 0 to |items|
      invariant RankedFirst(items, score, ranked, order, k)
    {
      var p := PlaceFor(ranked, score, items[k]);
      ghost var longer, places := InsertKeepsRanked(items, score, ranked, order, p, k);
      ranked, order := ranked[..p] + [items[k]] + ranked[p..], places;
      assert ranked == longer;
    }
    assert items[..|items|] == items;
  }

  lemma {:induction false} InsertKeepsRanked<T(!new)>(items: seq<T>,
      score: T -> real, ranked: seq<T>, order: seq<nat>, p: nat, k: nat)
    returns (longer: seq<T>, places: seq<nat>)
    requires k < |items| && RankedFirst(items, score, ranked, order, k)
    requires p <= |ranked| && (p > 0 ==> score(ranked[p - 1]) >= score(items[k]))
    requires forall i :: p <= i < |ranked| ==> score(ranked[i]) < score(items[k])
    ensures longer == ranked[..p] + [items[k]] + ranked[p..] && RankedFirst(items, score, longer, places, k + 1)
  {
    longer, places := ranked[..p] + [items[k]] + ranked[p..], order[..p] + [k] + order[p..];
    InsertKeepsSorted(items, score, ranked, order, p, k);
    InsertKeepsElements(ranked, p, items[k]);
    assert items[..k + 1] == items[..k] + [items[k]];
    forall i | 0 <= i < |places| ensures places[i] < k + 1 {
      if i > p { assert places[i] == order[i - 1]; }
    }
  }

  lemma {:induction false} InsertedInOrder<T(!new)>(score: T -> real, ranked: seq<T>, order: seq<nat>, p: nat, x: T, k: nat, i: nat, j: nat)
    requires p <= |ranked| == |order| && i < j <= |ranked|
    requires forall a, b :: 0 <= a < b < |ranked| ==> InOrder(score, ranked[a], order[a], ranked[b], order[b])
    requires forall a :: 0 <= a < |order| ==> order[a] < k
    requires forall a :: p <= a < |ranked| ==> score(ranked[a]) < score(x)
    requires p > 0 ==> score(ranked[p - 1]) >= score(x)
    ensures
      var after, places := ranked[..p] + [x] + ranked[p..], order[..p] + [k] + order[p..];
      InOrder(score, after[i], places[i], after[j], places[j])
  {
    var after, places := ranked[..p] + [x] + ranked[p..], order[..p] + [k] + order[p..];
    if j < p {
      assert after[i] == ranked[i] && after[j] == ranked[j] && places[i] == order[i] && places[j] == order[j];
    } else if j == p {
      assert after[i] == ranked[i] && after[j] == x && places[i] == order[i] && places[j] == k;
      assert i < p - 1 ==> InOrder(score, ranked[i], order[i], ranked[p - 1], order[p - 1]);
    } else {
      assert after[j] == ranked[j - 1] && places[j] == order[j - 1];
      if i < p {
        assert after[i] == ranked[i] && places[i] == order[i];
      } else if i > p {
        assert after[i] == ranked[i - 1] && places[i] == order[i - 1];
      }
    }
  }

  // Inserting before every smaller score, and behind every equal one.
  lemma {:induction false} InsertKeepsSorted<T(!new)>(items: seq<T>,
      score: T -> real, ranked: seq<T>, order: seq<nat>, p: nat, k: nat)
    requires p <= |ranked| && k < |items| && Sorted(items, score, ranked, order)
    requires forall i :: 0 <= i < |order| ==> order[i] < k
    requires forall i :: p <= i < |ranked| ==> score(ranked[i]) < score(items[k])
    requires p > 0 ==> score(ranked[p - 1]) >= score(items[k])
    ensures Sorted(items, score, ranked[..p] + [items[k]] + ranked[p..], order[..p] + [k] + order[p..])
  {
    var after, places := ranked[..p] + [items[k]] + ranked[p..], order[..p] + [k] + order[p..];
    forall i | 0 <= i < |after| ensures places[i] < |items| && after[i] == items[places[i]] {
      if i > p { assert after[i] == ranked[i - 1] && places[i] == order[i - 1]; }
    }
    forall i, j | 0 <= i < j < |after| ensures InOrder(score, after[i], places[i], after[j], places[j]) {
      InsertedInOrder(score, ranked, order, p, items[k], k, i, j);
    }
  }

  lemma {:induction false} InsertKeepsElements<T>(items: seq<T>, p: nat, x: T)
    requires p <= |items|
    ensures multiset(items[..p] + [x] + items[p..]) == multiset(items) + multiset{x}
  {
    assert items == items[..p] + items[p..];
  }

  datatype TaskDraft = TaskDraft(day: nat, rank: nat)

  // The tasks of the first `d` days, in the order in which they are appended.
  function TasksBefore(ranked: seq<LearningCandidate>, days: seq<Day>, d: nat): seq<TaskDraft>
    requires d <= |days|
  {
    if d == 0 then [] else TasksBefore(ranked, days, d - 1) + OnDayTasks(d - 1, DayOf(ranked, days, d - 1).picked)
  }

  function OnDayTasks(d: nat, picked: seq<nat>): seq<TaskDraft> { seq(|picked|,
      i requires 0 <= i < |picked| => TaskDraft(d, picked[i])) }

  // `build_learning_week`, on the ranked candidates.
  method BuildLearningWeek(days: seq<Day>, ranked: seq<LearningCandidate>) returns (tasks: seq<TaskDraft>)
    ensures tasks == TasksBefore(ranked, days, |days|)
  {
    var selected: set<string> := {};
    tasks := [];
    for d := 0 to |days|
      invariant selected == TakenBefore(ranked, days, d) && tasks == TasksBefore(ranked, days, d)
    {
      var more: seq<TaskDraft>;
      more, selected := PackDay(d, ranked, days[d].minutes, selected);
      tasks := tasks + more;
    }
  }

  // The loop over the candidates of one day.
  method PackDay(d: nat, ranked: seq<LearningCandidate>, minutes: int, taken: set<string>)
    returns (tasks: seq<TaskDraft>, selected: set<string>)
    ensures tasks == OnDayTasks(d, FillDay(ranked, minutes, taken).picked) && selected == FillDay(ranked, minutes, taken).taken
  {
    var remaining := minutes;
    tasks, selected := [], taken;
    var k := 0;
    while k < |ranked|
      invariant k <= |ranked|
      invariant
        var s := FillOfFirst(ranked, minutes, taken, k);
        !s.stopped && s.remaining == remaining && s.taken == selected && tasks == OnDayTasks(d, s.picked)
    {
      var identity := Identity(ranked[k]);
      if identity in selected || ranked[k].minutes > remaining {
        k := k + 1;
        continue;
      }
      tasks := tasks + [TaskDraft(d, k)];
      selected := selected + {identity};
      remaining := remaining - ranked[k].minutes;
      k := k + 1;
      if remaining < SHORTEST_REST {
        break;
      }
    }
    StoppedStays(ranked, minutes, taken, k, |ranked|);
  }

  // After the break nothing more happens to the day.
  lemma {:induction false} StoppedStays(ranked: seq<LearningCandidate>, minutes: int, taken: set<string>, k: nat,
      n: nat)
    requires k <= n <= |ranked| && (k == n || FillOfFirst(ranked, minutes, taken, k).stopped)
    ensures FillOfFirst(ranked, minutes, taken, n) == FillOfFirst(ranked, minutes, taken, k)
  {
    if k < n { StoppedStays(ranked, minutes, taken, k, n - 1); }
  }

  // `_fit_questions`.
  method FitQuestions(ranked: seq<Q.Candidate>, matching: seq<nat>, minutes: int) returns (f: Q.Fit)
    requires forall i :: 0 <= i < |matching| ==> matching[i] < |ranked|
    ensures f == Q.FitOfFirst(ranked, matching, minutes, |matching|)
  {
    var selected: seq<nat> := [];
    var used: nat := 0;
    var k := 0;
    while k < |matching|
      invariant k <= |matching| && Q.FitOfFirst(ranked, matching, minutes, k) == Q.Fit(selected, used)
      invariant |selected| < Q.MOST_QUESTIONS
    {
      var next := ranked[matching[k]].minutes;
      if used + next > minutes {
        k := k + 1;
        continue;
      }
      selected := selected + [matching[k]];
      used := used + next;
      k := k + 1;
      if |selected| >= Q.MOST_QUESTIONS {
        break;
      }
    }
    f := Q.Fit(selected, used);
    FullStays(ranked, matching, minutes, k, |matching|);
  }

  lemma {:induction false} FullStays(ranked: seq<Q.Candidate>, matching: seq<nat>, minutes: int, k: nat, n: nat)
    requires k <= n <= |matching| && forall i :: 0 <= i < |matching| ==> matching[i] < |ranked|
    requires k == n || |Q.FitOfFirst(ranked, matching, minutes, k).selected| >= Q.MOST_QUESTIONS
    ensures Q.FitOfFirst(ranked, matching, minutes, n) == Q.FitOfFirst(ranked, matching, minutes, k)
  {
    if k < n { FullStays(ranked, matching, minutes, k, n - 1); }
  }

  // `build_week`, on the ranked priorities and questions: the tasks of each day.
  method BuildWeek(days: seq<Day>, topics: seq<nat>, ranked: seq<Q.Candidate>, excluded: set<nat>)
    returns (week: seq<seq<Q.QuestionTask>>)
    ensures |week| == |days|
    ensures forall d :: 0 <= d < |days| ==> week[d] == Q.DayOf(ranked, topics, days, excluded, d).tasks
  {
    var selectedIds := excluded;
    week := [];
    for d := 0 to |days|
      invariant |week| == d && selectedIds == Q.TakenBefore(ranked, topics, days, excluded, d)
      invariant forall e :: 0 <= e < d ==> week[e] == Q.DayOf(ranked, topics, days, excluded, e).tasks
    {
      var day := ServeDay(topics, ranked, days[d].minutes, selectedIds);
      selectedIds := day.taken;
      week := week + [day.tasks];
    }
  }

  // The loop over the priorities of one day.
  method ServeDay(topics: seq<nat>, ranked: seq<Q.Candidate>, minutes: int,
      taken: set<nat>) returns (day: Q.QuestionDay)
    ensures day == Q.DayOfFirst(ranked, topics, minutes, taken, |topics|)
  {
    day := Q.QuestionDay([], minutes, taken, false);
    var k := 0;
    while k < |topics|
      invariant k <= |topics| && !day.stopped && day == Q.DayOfFirst(ranked, topics, minutes, taken, k)
    {
      var matching := Q.MatchingOfFirst(ranked, topics[k], day.taken, day.remaining, |ranked|);
      k := k + 1;
      if matching == [] {
        continue;
      }
      var f := FitQuestions(ranked, matching, day.remaining);
      if f.selected == [] {
        continue;
      }
      Q.FitIsGood(ranked, matching, day.remaining, |matching|);
      day := Q.QuestionDay(day.tasks + [Q.QuestionTask(topics[k - 1], f.selected)], day.remaining - f.used,
                           day.taken + Q.IdsOf(ranked, f.selected), day.remaining - f.used < Q.Shortest(ranked));
      if day.stopped {
        break;
      }
    }
    ServedStays(ranked, topics, minutes, taken, k, |topics|);
  }

  lemma {:induction false} ServedStays(ranked: seq<Q.Candidate>, topics: seq<nat>, minutes: int, taken: set<nat>,
      k: nat, n: nat)
    requires k <= n <= |topics| && (k == n || Q.DayOfFirst(ranked, topics, minutes, taken, k).stopped)
    ensures Q.DayOfFirst(ranked, topics, minutes, taken, n) == Q.DayOfFirst(ranked, topics, minutes, taken, k)
  {
    if k < n { ServedStays(ranked, topics, minutes, taken, k, n - 1); }
  }
}
