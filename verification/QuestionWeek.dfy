// app/domain/planning/planner.py, `build_week`: the questions of a week, topic by topic, on ranked candidates.
module QuestionPlannerSpec {
  import opened Wrappers
  import opened PlannerSpec

  datatype Candidate = Candidate(questionId: nat, knowledgeId: nat, minutes: nat)

  const MOST_QUESTIONS := 5

  // ---- `_fit_questions` --------------------------------------------------------------------

  datatype Fit = Fit(selected: seq<nat>, used: nat)

  // The greedy choice among the first `k` of the matching ranks; it ends with the fifth question.
  function FitOfFirst(ranked: seq<Candidate>, matching: seq<nat>, minutes: int, k: nat): Fit
    requires k <= |matching| && forall i :: 0 <= i < |matching| ==> matching[i] < |ranked|
  {
    if k == 0 then Fit([], 0)
    else
      var f := FitOfFirst(ranked, matching, minutes, k - 1);
      if |f.selected| >= MOST_QUESTIONS || f.used + ranked[matching[k - 1]].minutes > minutes then f
      else Fit(f.selected + [matching[k - 1]], f.used + ranked[matching[k - 1]].minutes)
  }

  ghost predicate Ranks(ranked: seq<Candidate>,
      picked: seq<nat>) { forall i :: 0 <= i < |picked| ==> picked[i] < |ranked| }

  predicate Ascending(picked: seq<nat>) { forall i, j :: 0 <= i < j < |picked| ==> picked[i] < picked[j] }

  function MinutesOfFirst(ranked: seq<Candidate>, picked: seq<nat>, k: nat): nat
    requires k <= |picked| && forall i :: 0 <= i < |picked| ==> picked[i] < |ranked|
  {
    if k == 0 then 0 else MinutesOfFirst(ranked, picked, k - 1) + ranked[picked[k - 1]].minutes
  }

  lemma {:induction false} MinutesOfPrefix(ranked: seq<Candidate>, picked: seq<nat>, last: nat, k: nat)
    requires k <= |picked| && last < |ranked| && forall i :: 0 <= i < |picked| ==> picked[i] < |ranked|
    ensures MinutesOfFirst(ranked, picked + [last], k) == MinutesOfFirst(ranked, picked, k)
  {
    if k > 0 { MinutesOfPrefix(ranked, picked, last, k - 1); }
  }

  // At most five questions in rank order, from the matching ones, within the minutes; and at least one if
  // the first matching one fits.
  ghost predicate GoodFit(ranked: seq<Candidate>, matching: seq<nat>, minutes: int, k: nat, f: Fit)
    requires k <= |matching| && Ranks(ranked, matching)
  {
    && |f.selected| <= MOST_QUESTIONS && Ranks(ranked, f.selected) && Ascending(f.selected)
    && f.used == MinutesOfFirst(ranked, f.selected, |f.selected|)
    && (f.selected != [] ==> f.used <= minutes)
    && (forall i :: 0 <= i < |f.selected| ==> f.selected[i] in matching[..k])
    && (0 < k && ranked[matching[0]].minutes <= minutes ==> f.selected != [])
  }

  lemma {:induction false} FitIsGood(ranked: seq<Candidate>, matching: seq<nat>, minutes: int, k: nat)
    requires k <= |matching| && Ranks(ranked, matching) && Ascending(matching)
    ensures GoodFit(ranked, matching, minutes, k, FitOfFirst(ranked, matching, minutes, k))
  {
    FitIsChosen(ranked, matching, minutes, k);
    FitIsPacked(ranked, matching, minutes, k);
  }

  ghost predicate ChosenFrom(matching: seq<nat>, k: nat, selected: seq<nat>)
    requires k <= |matching|
  {
    Ascending(selected) && forall i :: 0 <= i < |selected| ==> selected[i] in matching[..k]
  }

  lemma {:induction false} BelowNext(matching: seq<nat>, k: nat, x: nat)
    requires k < |matching| && Ascending(matching) && x in matching[..k]
    ensures x < matching[k] && x in matching[..k + 1]
  {
    assert matching[..k + 1] == matching[..k] + [matching[k]];
    var j :| 0 <= j < |matching[..k]| && matching[..k][j] == x;
    assert matching[j] == x;
  }

  lemma {:induction false} ChooseNext(matching: seq<nat>, k: nat, selected: seq<nat>)
    requires k < |matching| && Ascending(matching) && ChosenFrom(matching, k, selected)
    ensures ChosenFrom(matching, k + 1, selected) && ChosenFrom(matching, k + 1, selected + [matching[k]])
  {
    forall i | 0 <= i < |selected| ensures selected[i] < matching[k] && selected[i] in matching[..k + 1] {
      BelowNext(matching, k, selected[i]);
    }
    assert matching[..k + 1] == matching[..k] + [matching[k]];
  }

  lemma {:induction false} FitIsChosen(ranked: seq<Candidate>, matching: seq<nat>, minutes: int, k: nat)
    requires k <= |matching| && Ranks(ranked, matching) && Ascending(matching)
    ensures ChosenFrom(matching, k, FitOfFirst(ranked, matching, minutes, k).selected)
  {
    if k > 0 {
      FitIsChosen(ranked, matching, minutes, k - 1);
      ChooseNext(matching, k - 1, FitOfFirst(ranked, matching, minutes, k - 1).selected);
    }
  }

  lemma {:induction false} FitIsPacked(ranked: seq<Candidate>, matching: seq<nat>, minutes: int, k: nat)
    requires k <= |matching| && Ranks(ranked, matching)
    ensures
      var f := FitOfFirst(ranked, matching, minutes, k);
      && |f.selected| <= MOST_QUESTIONS && Ranks(ranked, f.selected)
      && f.used == MinutesOfFirst(ranked, f.selected, |f.selected|)
      && (f.selected != [] ==> f.used <= minutes)
      && (k > 0 && ranked[matching[0]].minutes <= minutes ==> f.selected != [])
  {
    if k > 0 {
      FitIsPacked(ranked, matching, minutes, k - 1);
      var f := FitOfFirst(ranked, matching, minutes, k - 1);
      MinutesOfPrefix(ranked, f.selected, matching[k - 1], |f.selected|);
    }
  }

  // ---- `build_week` ------------------------------------------------------------------------

  // The ranks among the first `k` that belong to a topic, are not taken, and fit.
  function MatchingOfFirst(ranked: seq<Candidate>, topic: nat, taken: set<nat>, remaining: int, k: nat): (m: seq<nat>)
    requires k <= |ranked|
    ensures Ascending(m)
    ensures forall i :: 0 <= i < |m| ==>
              m[i] < k && ranked[m[i]].knowledgeId == topic && ranked[m[i]].questionId !in taken && ranked[m[i]].minutes <= remaining
  {
    if k == 0 then []
    else
      var c, rest := ranked[k - 1], MatchingOfFirst(ranked, topic, taken, remaining, k - 1);
      if c.knowledgeId == topic && c.questionId !in taken && c.minutes <= remaining then rest + [k - 1] else rest
  }

  function IdsOf(ranked: seq<Candidate>, picked: seq<nat>): set<nat>
    requires forall i :: 0 <= i < |picked| ==> picked[i] < |ranked|
  {
    set i | 0 <= i < |picked| :: ranked[picked[i]].questionId
  }

  // The shortest question, or 1 when there is none.
  function Shortest(ranked: seq<Candidate>): nat {
    if ranked == [] then 1 else ShortestOfFirst(ranked, |ranked|)
  }

  function ShortestOfFirst(ranked: seq<Candidate>, k: nat): nat
    requires 0 < k <= |ranked|
  {
    if k == 1 then ranked[0].minutes
    else
      var m := ShortestOfFirst(ranked, k - 1);
      if ranked[k - 1].minutes < m then ranked[k - 1].minutes else m
  }

  datatype QuestionTask = QuestionTask(topic: nat, picked: seq<nat>)

  // A day while priorities are served.
  datatype QuestionDay = QuestionDay(tasks: seq<QuestionTask>, remaining: int, taken: set<nat>, stopped: bool)

  function Serve(ranked: seq<Candidate>, s: QuestionDay, topic: nat): QuestionDay {
    if s.stopped then s
    else
      var matching := MatchingOfFirst(ranked, topic, s.taken, s.remaining, |ranked|);
      if matching == [] then s
      else
        var f := FitOfFirst(ranked, matching, s.remaining, |matching|);
        if f.selected == [] then s
        else
          FitIsGood(ranked, matching, s.remaining, |matching|);
          QuestionDay(s.tasks + [QuestionTask(topic, f.selected)], s.remaining - f.used,
                      s.taken + IdsOf(ranked, f.selected), s.remaining - f.used < Shortest(ranked))
  }

  function DayOfFirst(ranked: seq<Candidate>, topics: seq<nat>, minutes: int, taken: set<nat>, k: nat): QuestionDay
    requires k <= |topics|
  {
    if k == 0 then QuestionDay([], minutes, taken, false)
    else Serve(ranked, DayOfFirst(ranked, topics, minutes, taken, k - 1), topics[k - 1])
  }

  function TakenBefore(ranked: seq<Candidate>, topics: seq<nat>, days: seq<Day>, excluded: set<nat>, d: nat): set<nat>
    requires d <= |days|
    decreases d, 0
  {
    if d == 0 then excluded else DayOf(ranked, topics, days, excluded, d - 1).taken
  }

  function DayOf(ranked: seq<Candidate>, topics: seq<nat>, days: seq<Day>, excluded: set<nat>, d: nat): QuestionDay
    requires d < |days|
    decreases d, 1
  {
    DayOfFirst(ranked, topics, days[d].minutes, TakenBefore(ranked, topics, days, excluded, d), |topics|)
  }

  ghost predicate GoodTask(ranked: seq<Candidate>, t: QuestionTask) {
    && 1 <= |t.picked| <= MOST_QUESTIONS && Ranks(ranked, t.picked)
    && forall i :: 0 <= i < |t.picked| ==> ranked[t.picked[i]].knowledgeId == t.topic
  }

  ghost predicate GoodTasks(ranked: seq<Candidate>,
      tasks: seq<QuestionTask>) { forall i :: 0 <= i < |tasks| ==> GoodTask(ranked, tasks[i]) }

  ghost function DayMinutes(ranked: seq<Candidate>, tasks: seq<QuestionTask>, k: nat): nat
    requires k <= |tasks| && GoodTasks(ranked, tasks)
  {
    if k == 0 then 0 else DayMinutes(ranked, tasks, k - 1) + MinutesOfFirst(ranked, tasks[k - 1].picked, |tasks[k - 1].picked|)
  }

  lemma {:induction false} DayMinutesOfPrefix(ranked: seq<Candidate>, tasks: seq<QuestionTask>, t: QuestionTask, k: nat)
    requires k <= |tasks| && GoodTasks(ranked, tasks) && GoodTask(ranked, t)
    ensures DayMinutes(ranked, tasks + [t], k) == DayMinutes(ranked, tasks, k)
  {
    if k > 0 { DayMinutesOfPrefix(ranked, tasks, t, k - 1); }
  }

  // The questions of a day fill its minutes up to what is left.
  ghost predicate PackedDay(ranked: seq<Candidate>, minutes: int, s: QuestionDay) {
    && GoodTasks(ranked, s.tasks)
    && DayMinutes(ranked, s.tasks, |s.tasks|) + s.remaining == minutes
    && (s.tasks != [] ==> s.remaining >= 0)
  }

  lemma {:induction false} ServeIsGood(ranked: seq<Candidate>, s: QuestionDay, topic: nat)
    ensures
      var t := Serve(ranked, s, topic);
      t == s || (
        && t.tasks == s.tasks + [t.tasks[|s.tasks|]]
        && var task := t.tasks[|s.tasks|];
           && GoodTask(ranked, task) && Ascending(task.picked) && task.topic == topic
           && t.remaining == s.remaining - MinutesOfFirst(ranked, task.picked, |task.picked|) >= 0
           && t.taken == s.taken + IdsOf(ranked, task.picked)
           && forall i :: 0 <= i < |task.picked| ==> ranked[task.picked[i]].questionId !in s.taken)
  {
    var t := Serve(ranked, s, topic);
    if t != s {
      var matching := MatchingOfFirst(ranked, topic, s.taken, s.remaining, |ranked|);
      var f := FitOfFirst(ranked, matching, s.remaining, |matching|);
      FitIsGood(ranked, matching, s.remaining, |matching|);
      forall i | 0 <= i < |f.selected|
        ensures ranked[f.selected[i]].knowledgeId == topic && ranked[f.selected[i]].questionId !in s.taken
      {
        assert f.selected[i] in matching;
      }
    }
  }

  lemma {:induction false} DayIsPacked(ranked: seq<Candidate>, topics: seq<nat>, minutes: int, taken: set<nat>, k: nat)
    requires k <= |topics|
    ensures PackedDay(ranked, minutes, DayOfFirst(ranked, topics, minutes, taken, k))
  {
    if k > 0 {
      DayIsPacked(ranked, topics, minutes, taken, k - 1);
      ServedIsPacked(ranked, minutes, DayOfFirst(ranked, topics, minutes, taken, k - 1), topics[k - 1]);
    }
  }

  lemma {:induction false} ServedIsPacked(ranked: seq<Candidate>, minutes: int, s: QuestionDay, topic: nat)
    requires PackedDay(ranked, minutes, s)
    ensures PackedDay(ranked, minutes, Serve(ranked, s, topic))
  {
    ServeIsGood(ranked, s, topic);
    var t := Serve(ranked, s, topic);
    if t != s { DayMinutesOfPrefix(ranked, s.tasks, t.tasks[|s.tasks|], |s.tasks|); }
  }

  // No day is overfilled, and every task holds one to five questions of its topic.
  lemma {:induction false} WeekFitsItsDays(ranked: seq<Candidate>, topics: seq<nat>, days: seq<Day>,
      excluded: set<nat>, d: nat)
    requires d < |days|
    ensures
      var s := DayOf(ranked, topics, days, excluded, d);
      && GoodTasks(ranked, s.tasks)
      && DayMinutes(ranked, s.tasks, |s.tasks|) <= if days[d].minutes > 0 then days[d].minutes else 0
  {
    DayIsPacked(ranked, topics, days[d].minutes, TakenBefore(ranked, topics, days, excluded, d), |topics|);
  }

  // ---- No question twice -------------------------------------------------------------------

  // New questions only, and no question in two tasks.
  ghost predicate NewQuestions(ranked: seq<Candidate>, taken: set<nat>, s: QuestionDay) {
    && GoodTasks(ranked, s.tasks) && taken <= s.taken
    && (forall t :: 0 <= t < |s.tasks| ==>
          IdsOf(ranked, s.tasks[t].picked) !! taken && IdsOf(ranked, s.tasks[t].picked) <= s.taken)
    && (forall t, u :: 0 <= t < u < |s.tasks| ==> IdsOf(ranked, s.tasks[t].picked) !! IdsOf(ranked, s.tasks[u].picked))
  }

  lemma {:induction false} DayQuestions(ranked: seq<Candidate>, topics: seq<nat>, minutes: int, taken: set<nat>, k: nat)
    requires k <= |topics|
    ensures NewQuestions(ranked, taken, DayOfFirst(ranked, topics, minutes, taken, k))
  {
    if k > 0 {
      DayQuestions(ranked, topics, minutes, taken, k - 1);
      ServedQuestionsAreNew(ranked, taken, DayOfFirst(ranked, topics, minutes, taken, k - 1), topics[k - 1]);
    }
  }

  lemma {:induction false} ServedQuestionsAreNew(ranked: seq<Candidate>, taken: set<nat>, s: QuestionDay, topic: nat)
    requires NewQuestions(ranked, taken, s)
    ensures NewQuestions(ranked, taken, Serve(ranked, s, topic))
  {
    ServeIsGood(ranked, s, topic);
    var t := Serve(ranked, s, topic);
    if t != s {
      assert IdsOf(ranked, t.tasks[|s.tasks|].picked) !! s.taken;
      forall u | 0 <= u < |t.tasks|
        ensures IdsOf(ranked, t.tasks[u].picked) !! taken && IdsOf(ranked, t.tasks[u].picked) <= t.taken
      {
        assert u < |s.tasks| ==> t.tasks[u] == s.tasks[u];
      }
    }
  }

  lemma {:induction false} TakenGrows(ranked: seq<Candidate>, topics: seq<nat>, days: seq<Day>, excluded: set<nat>,
      d: nat, e: nat)
    requires d <= e <= |days|
    ensures TakenBefore(ranked, topics, days, excluded, d) <= TakenBefore(ranked, topics, days, excluded, e)
  {
    if d < e {
      TakenGrows(ranked, topics, days, excluded, d, e - 1);
      DayQuestions(ranked, topics, days[e - 1].minutes, TakenBefore(ranked, topics, days, excluded, e - 1), |topics|);
    }
  }

  // No excluded question is scheduled, and none in two tasks, of one day or of two.
  lemma {:induction false} TasksShareNoQuestion(ranked: seq<Candidate>, topics: seq<nat>, days: seq<Day>,
      excluded: set<nat>,
                                                d: nat, e: nat, t: nat, u: nat)
    requires d <= e < |days|
    requires t < |DayOf(ranked, topics, days, excluded, d).tasks| && u < |DayOf(ranked, topics, days, excluded, e).tasks|
    ensures
      var a, b := DayOf(ranked, topics, days, excluded, d).tasks[t], DayOf(ranked, topics, days, excluded, e).tasks[u];
      && GoodTask(ranked, a) && GoodTask(ranked, b) && IdsOf(ranked, a.picked) !! excluded
      && ((d, t) != (e, u) ==> IdsOf(ranked, a.picked) !! IdsOf(ranked, b.picked))
  {
    DayQuestions(ranked, topics, days[d].minutes, TakenBefore(ranked, topics, days, excluded, d), |topics|);
    DayQuestions(ranked, topics, days[e].minutes, TakenBefore(ranked, topics, days, excluded, e), |topics|);
    TakenGrows(ranked, topics, days, excluded, 0, d);
    if d < e { TakenGrows(ranked, topics, days, excluded, d + 1, e); }
  }

  // ---- No question twice in one task -------------------------------------------------------

  // No two candidates offer the same question for the same topic.
  ghost predicate UniqueOffers(ranked: seq<Candidate>) {
    forall i, j :: 0 <= i < j < |ranked| && ranked[i].knowledgeId == ranked[j].knowledgeId ==> ranked[i].questionId != ranked[j].questionId
  }

  ghost predicate DistinctQuestions(ranked: seq<Candidate>, t: QuestionTask) {
    Ranks(ranked, t.picked)
    && forall i, j :: 0 <= i < j < |t.picked| ==> ranked[t.picked[i]].questionId != ranked[t.picked[j]].questionId
  }

  ghost predicate DistinctInEveryTask(ranked: seq<Candidate>, s: QuestionDay) {
    forall t :: 0 <= t < |s.tasks| ==> DistinctQuestions(ranked, s.tasks[t])
  }

  // Whatever the week looks like, no task of it asks a question twice.
  ghost predicate NeverTwiceInATask(ranked: seq<Candidate>) {
    forall topics: seq<nat>, minutes: int, taken: set<nat> ::
      DistinctInEveryTask(ranked, DayOfFirst(ranked, topics, minutes, taken, |topics|))
  }

  lemma {:induction false} UniqueOffersAreDistinct(ranked: seq<Candidate>, topics: seq<nat>, minutes: int,
      taken: set<nat>, k: nat)
    requires k <= |topics| && UniqueOffers(ranked)
    ensures DistinctInEveryTask(ranked, DayOfFirst(ranked, topics, minutes, taken, k))
  {
    if k > 0 {
      UniqueOffersAreDistinct(ranked, topics, minutes, taken, k - 1);
      ServeIsGood(ranked, DayOfFirst(ranked, topics, minutes, taken, k - 1), topics[k - 1]);
    }
  }

  // A planner never asks a question twice in a task exactly when its candidates are unique offers.
  lemma {:induction false} NeverTwiceIffUniqueOffers(ranked: seq<Candidate>)
    ensures NeverTwiceInATask(ranked) <==> UniqueOffers(ranked)
  {
    if UniqueOffers(ranked) {
      forall topics: seq<nat>, minutes: int, taken: set<nat>
        ensures DistinctInEveryTask(ranked, DayOfFirst(ranked, topics, minutes, taken, |topics|))
      {
        UniqueOffersAreDistinct(ranked, topics, minutes, taken, |topics|);
      }
    } else {
      var i, j :| 0 <= i < j < |ranked| && ranked[i].knowledgeId == ranked[j].knowledgeId && ranked[i].questionId == ranked[j].questionId;
      DoubleOfferIsScheduledTwice(ranked, i, j);
    }
  }

  function LongestOfFirst(ranked: seq<Candidate>, k: nat): (longest: nat)
    requires k <= |ranked|
    ensures forall i :: 0 <= i < k ==> ranked[i].minutes <= longest
  {
    if k == 0 then 0
    else if ranked[k - 1].minutes > LongestOfFirst(ranked, k - 1) then ranked[k - 1].minutes
    else LongestOfFirst(ranked, k - 1)
  }

  lemma {:induction false} MatchingHas(ranked: seq<Candidate>, topic: nat, taken: set<nat>, remaining: int, k: nat,
      i: nat)
    requires i < k <= |ranked|
    requires ranked[i].knowledgeId == topic && ranked[i].questionId !in taken && ranked[i].minutes <= remaining
    ensures i in MatchingOfFirst(ranked, topic, taken, remaining, k)
  {
    if i < k - 1 { MatchingHas(ranked, topic, taken, remaining, k - 1, i); }
  }

  // With time for five of the longest questions, nothing but the limit of five ends the choice.
  lemma {:induction false} AmpleFit(ranked: seq<Candidate>, matching: seq<nat>, longest: nat, k: nat)
    requires k <= |matching| && Ranks(ranked, matching) && forall i :: 0 <= i < |ranked| ==> ranked[i].minutes <= longest
    ensures
      var f := FitOfFirst(ranked, matching, 5 * longest, k);
      |f.selected| == (if k < 5 then k else 5) && f.used <= |f.selected| * longest
  {
    if k > 0 { AmpleFit(ranked, matching, longest, k - 1); }
  }

  // Two offers of one question for one topic: on a long day with nothing else to ask, one task takes both.
  lemma {:induction false} DoubleOfferIsScheduledTwice(ranked: seq<Candidate>, i: nat, j: nat)
    requires i < j < |ranked| && ranked[i].knowledgeId == ranked[j].knowledgeId && ranked[i].questionId == ranked[j].questionId
    ensures !NeverTwiceInATask(ranked)
  {
    var q, topic := ranked[i].questionId, ranked[i].knowledgeId;
    var taken := set c | c in ranked && c.questionId != q :: c.questionId;
    var minutes := 5 * LongestOfFirst(ranked, |ranked|);
    var matching := MatchingOfFirst(ranked, topic, taken, minutes, |ranked|);
    MatchingHas(ranked, topic, taken, minutes, |ranked|, i);
    MatchingHas(ranked, topic, taken, minutes, |ranked|, j);
    BothAreMatching(matching, i, j);
    var selected := AmpleDay(ranked, topic, minutes, taken);
    OnlyThatQuestion(ranked, matching, taken, q, selected);
    var day := DayOfFirst(ranked, [topic], minutes, taken, |[topic]|);
    SameQuestionTwice(ranked, QuestionTask(topic, selected), q);
    assert day.tasks[0] == QuestionTask(topic, selected);
    assert !DistinctInEveryTask(ranked, day);
  }

  lemma {:induction false} BothAreMatching(matching: seq<nat>, i: nat, j: nat)
    requires i in matching && j in matching && i != j
    ensures |matching| >= 2
  {
  }

  lemma {:induction false} SameQuestionTwice(ranked: seq<Candidate>, t: QuestionTask, q: nat)
    requires Ranks(ranked, t.picked) && |t.picked| >= 2 && forall i :: 0 <= i < |t.picked| ==> ranked[t.picked[i]].questionId == q
    ensures !DistinctQuestions(ranked, t)
  {
    assert ranked[t.picked[0]].questionId == ranked[t.picked[1]].questionId;
  }

  // The only task of an ample day with one topic.
  lemma {:induction false} AmpleDay(ranked: seq<Candidate>, topic: nat, minutes: int,
      taken: set<nat>) returns (selected: seq<nat>)
    requires minutes == 5 * LongestOfFirst(ranked, |ranked|)
    requires |MatchingOfFirst(ranked, topic, taken, minutes, |ranked|)| >= 2
    ensures DayOfFirst(ranked, [topic], minutes, taken, |[topic]|).tasks == [QuestionTask(topic, selected)]
    ensures |selected| >= 2 && Ranks(ranked, selected)
    ensures forall i :: 0 <= i < |selected| ==> selected[i] in MatchingOfFirst(ranked, topic, taken, minutes, |ranked|)
  {
    var matching := MatchingOfFirst(ranked, topic, taken, minutes, |ranked|);
    AmpleFit(ranked, matching, LongestOfFirst(ranked, |ranked|), |matching|);
    FitIsGood(ranked, matching, minutes, |matching|);
    selected := FitOfFirst(ranked, matching, minutes, |matching|).selected;
    assert matching[..|matching|] == matching;
    var start := DayOfFirst(ranked, [topic], minutes, taken, 0);
    assert DayOfFirst(ranked, [topic], minutes, taken, |[topic]|) == Serve(ranked, start, topic);
  }

  lemma {:induction false} OnlyThatQuestion(ranked: seq<Candidate>, matching: seq<nat>, taken: set<nat>, q: nat,
      selected: seq<nat>)
    requires Ranks(ranked, matching) && Ranks(ranked, selected)
    requires forall i :: 0 <= i < |matching| ==> ranked[matching[i]].questionId !in taken
    requires forall c :: c in ranked && c.questionId != q ==> c.questionId in taken
    requires forall i :: 0 <= i < |selected| ==> selected[i] in matching
    ensures forall i :: 0 <= i < |selected| ==> ranked[selected[i]].questionId == q
  {
    forall i | 0 <= i < |selected| ensures ranked[selected[i]].questionId == q {
      assert ranked[selected[i]] in ranked;
    }
  }
}
