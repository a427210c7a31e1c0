// What the greedy packing of a week means (app/domain/planning/planner.py), without its loops: exactly which
// candidates a day takes, and exactly which questions it leaves out although they would fit.
module PlannerLaws {
  import opened Wrappers
  import opened PlannerSpec
  import Q = QuestionPlannerSpec

  // ---- Learning tasks ----------------------------------------------------------------------

  // The picks of the first `k` candidates are the first picks of the day.
  lemma {:induction false} PicksSoFar(ranked: seq<LearningCandidate>, minutes: int, taken: set<string>, k: nat, n: nat)
    requires k <= n <= |ranked|
    ensures
      var some, more := FillOfFirst(ranked, minutes, taken, k).picked, FillOfFirst(ranked, minutes, taken, n).picked;
      && some <= more
      && (forall j :: 0 <= j < |some| ==> some[j] < k)
      && (forall j :: |some| <= j < |more| ==> k <= more[j] < n)
  {
    if k < n { PicksSoFar(ranked, minutes, taken, k, n - 1); }
    else if 0 < k { PicksSoFar(ranked, minutes, taken, k - 1, k - 1); }
  }

  // What is taken by then: what was taken before the day, and the identities picked on it.
  predicate AmongPicks(ranked: seq<LearningCandidate>, picked: seq<nat>, id: string) {
    exists j :: 0 <= j < |picked| && picked[j] < |ranked| && Identity(ranked[picked[j]]) == id
  }

  lemma {:induction false} TakenIff(ranked: seq<LearningCandidate>, minutes: int, taken: set<string>, k: nat,
      id: string)
    requires k <= |ranked|
    ensures
      var s := FillOfFirst(ranked, minutes, taken, k);
      id in s.taken <==> id in taken || AmongPicks(ranked, s.picked, id)
  {
    DayIdentities(ranked, minutes, taken, k);
    if id in FillOfFirst(ranked, minutes, taken, k).taken && id !in taken {
      var j := TakenIsPicked(ranked, minutes, taken, k, id);
    }
  }

  lemma {:induction false} StoppedIff(ranked: seq<LearningCandidate>, minutes: int, taken: set<string>, k: nat)
    requires k <= |ranked|
    ensures
      var s := FillOfFirst(ranked, minutes, taken, k);
      s.stopped <==> s.picked != [] && s.remaining < 15
  {
    if k > 0 { StoppedIff(ranked, minutes, taken, k - 1); }
  }

  lemma {:induction false} TakenBeforeIff(ranked: seq<LearningCandidate>, days: seq<Day>, d: nat, id: string)
    requires d <= |days|
    ensures id in TakenBefore(ranked, days, d) <==> exists e :: 0 <= e < d && OnDay(ranked, days, e, id)
  {
    if d > 0 {
      TakenBeforeIff(ranked, days, d - 1, id);
      TakenIff(ranked, days[d - 1].minutes, TakenBefore(ranked, days, d - 1), |ranked|, id);
      assert OnDay(ranked, days, d - 1, id) <==> AmongPicks(ranked, DayOf(ranked, days, d - 1).picked, id);
    }
  }

  // A day picks candidates in the order of their ranks, and picks the candidate of rank `i` exactly if its identity
  // is on no earlier day and not among the day's better ranked picks, these leave it enough minutes, and they
  // leave the day at least a quarter of an hour.
  lemma {:induction false} PickedIff(ranked: seq<LearningCandidate>, days: seq<Day>, d: nat,
      i: nat) returns (better: seq<nat>)
    requires d < |days| && i < |ranked|
    ensures
      var picked := DayOf(ranked, days, d).picked;
      && better <= picked
      && (forall j :: 0 <= j < |better| ==> better[j] < i)
      && (forall j :: |better| <= j < |picked| ==> i <= picked[j] < |ranked|)
    ensures
      var used := MinutesOfFirst(ranked, better, |better|);
      i in DayOf(ranked, days, d).picked <==>
        && (forall e :: 0 <= e < d ==> !OnDay(ranked, days, e, Identity(ranked[i])))
        && !AmongPicks(ranked, better, Identity(ranked[i]))
        && used + ranked[i].minutes <= days[d].minutes
        && (better != [] ==> days[d].minutes - used >= 15)
  {
    var minutes, taken := days[d].minutes, TakenBefore(ranked, days, d);
    var s := FillOfFirst(ranked, minutes, taken, i);
    better := s.picked;
    PicksSoFar(ranked, minutes, taken, i, |ranked|);
    PicksSoFar(ranked, minutes, taken, i + 1, |ranked|);
    TakenIff(ranked, minutes, taken, i, Identity(ranked[i]));
    TakenBeforeIff(ranked, days, d, Identity(ranked[i]));
    StoppedIff(ranked, minutes, taken, i);
    DayIsPacked(ranked, minutes, taken, i);
    assert i in DayOf(ranked, days, d).picked <==> i in FillOfFirst(ranked, minutes, taken, i + 1).picked;
  }

  // Named tasks are the same if their names are; unnamed ones on one topic, if their types are.
  lemma {:induction false} IdentityTells(a: LearningCandidate, b: LearningCandidate)
    ensures
      var named := a.taskIdentity.GetOr("") != "" && b.taskIdentity.GetOr("") != "";
      named ==> (Identity(a) == Identity(b) <==> a.taskIdentity == b.taskIdentity)
    ensures
      var unnamed := a.taskIdentity.GetOr("") == "" == b.taskIdentity.GetOr("");
      unnamed && a.knowledgeId == b.knowledgeId ==> (Identity(a) == Identity(b) <==> a.taskType == b.taskType)
  {
    var x, y := a.knowledgeId + ":" + a.taskType, b.knowledgeId + ":" + b.taskType;
    assert x[|a.knowledgeId| + 1..] == a.taskType && y[|b.knowledgeId| + 1..] == b.taskType;
  }

  // ---- Questions ---------------------------------------------------------------------------

  // The day has a full task of the topic.
  predicate HasFullTask(s: Q.QuestionDay, topic: nat) {
    exists t :: 0 <= t < |s.tasks| && s.tasks[t].topic == topic && |s.tasks[t].picked| == 5
  }

  // Everything of the topic is asked, does not fit any more, or had to give way to a full task.
  predicate Exhausted(ranked: seq<Q.Candidate>, s: Q.QuestionDay, topic: nat) {
    forall i :: 0 <= i < |ranked| && ranked[i].knowledgeId == topic ==>
      ranked[i].questionId in s.taken || ranked[i].minutes > s.remaining || HasFullTask(s, topic)
  }

  // What the greedy choice skips does not fit any more, unless it is full.
  lemma {:induction false} SkippedDoesNotFit(ranked: seq<Q.Candidate>, matching: seq<nat>, minutes: int, k: nat, j: nat)
    requires j < k <= |matching| && Q.Ranks(ranked, matching)
    ensures
      var f := Q.FitOfFirst(ranked, matching, minutes, k);
      matching[j] in f.selected || f.used + ranked[matching[j]].minutes > minutes || |f.selected| >= 5
  {
    if j < k - 1 { SkippedDoesNotFit(ranked, matching, minutes, k - 1, j); }
  }

  lemma {:induction false} ChoicesSoFar(ranked: seq<Q.Candidate>, matching: seq<nat>, minutes: int, k: nat, n: nat)
    requires k <= n <= |matching| && Q.Ranks(ranked, matching) && Q.Ascending(matching)
    ensures
      var some, more := Q.FitOfFirst(ranked, matching, minutes, k).selected, Q.FitOfFirst(ranked, matching, minutes, n).selected;
      && some <= more
      && (forall j :: 0 <= j < |some| ==> k < |matching| ==> some[j] < matching[k])
      && (forall j :: |some| <= j < |more| ==> k < |matching| && matching[k] <= more[j])
  {
    if k < n { ChoicesSoFar(ranked, matching, minutes, k, n - 1); }
    else if 0 < k { ChoicesSoFar(ranked, matching, minutes, k - 1, k - 1); }
  }

  // A question is chosen for a task exactly if fewer than five better ranked ones are, and they leave it enough
  // minutes.
  lemma {:induction false} ChosenIff(ranked: seq<Q.Candidate>, matching: seq<nat>, minutes: int,
      j: nat) returns (better: seq<nat>)
    requires j < |matching| && Q.Ranks(ranked, matching) && Q.Ascending(matching)
    ensures
      var selected := Q.FitOfFirst(ranked, matching, minutes, |matching|).selected;
      && better <= selected && Q.Ranks(ranked, better)
      && (forall i :: 0 <= i < |better| ==> better[i] < matching[j])
      && (forall i :: |better| <= i < |selected| ==> matching[j] <= selected[i])
      && (matching[j] in selected <==>
            |better| < 5 && Q.MinutesOfFirst(ranked, better, |better|) + ranked[matching[j]].minutes <= minutes)
  {
    better := Q.FitOfFirst(ranked, matching, minutes, j).selected;
    ChoicesSoFar(ranked, matching, minutes, j, |matching|);
    ChoicesSoFar(ranked, matching, minutes, j + 1, |matching|);
    Q.FitIsPacked(ranked, matching, minutes, j);
    var next := Q.FitOfFirst(ranked, matching, minutes, j + 1).selected;
    var whole := Q.FitOfFirst(ranked, matching, minutes, |matching|).selected;
    if next != better {
      assert whole[|better|] == next[|better|] == matching[j];
    } else {
      forall i | 0 <= i < |whole| ensures whole[i] != matching[j] {
        if i >= |next| { assert matching[j + 1] <= whole[i]; }
      }
    }
  }

  lemma {:induction false} ShortestIsShortest(ranked: seq<Q.Candidate>, k: nat, i: nat)
    requires i < k <= |ranked|
    ensures Q.ShortestOfFirst(ranked, k) <= ranked[i].minutes
  {
    if i < k - 1 { ShortestIsShortest(ranked, k - 1, i); }
  }

  lemma {:induction false} ServedIsExhausted(ranked: seq<Q.Candidate>, s: Q.QuestionDay, topic: nat)
    requires s.stopped ==> s.remaining < Q.Shortest(ranked)
    ensures Exhausted(ranked, Q.Serve(ranked, s, topic), topic)
  {
    var t := Q.Serve(ranked, s, topic);
    forall i | 0 <= i < |ranked| && ranked[i].knowledgeId == topic && ranked[i].questionId !in t.taken && ranked[i].minutes <= t.remaining
      ensures HasFullTask(t, topic)
    {
      ShortestIsShortest(ranked, |ranked|, i);
      Q.ServeIsGood(ranked, s, topic);
      var matching := Q.MatchingOfFirst(ranked, topic, s.taken, s.remaining, |ranked|);
      Q.MatchingHas(ranked, topic, s.taken, s.remaining, |ranked|, i);
      var f := Q.FitOfFirst(ranked, matching, s.remaining, |matching|);
      Q.FitIsGood(ranked, matching, s.remaining, |matching|);
      var j :| 0 <= j < |matching| && matching[j] == i;
      SkippedDoesNotFit(ranked, matching, s.remaining, |matching|, j);
      assert t.tasks[|s.tasks|] == Q.QuestionTask(topic, f.selected);
    }
  }

  lemma {:induction false} ExhaustedStays(ranked: seq<Q.Candidate>, s: Q.QuestionDay, topic: nat, next: nat)
    requires Exhausted(ranked, s, topic)
    ensures Exhausted(ranked, Q.Serve(ranked, s, next), topic)
  {
    Q.ServeIsGood(ranked, s, next);
    var t := Q.Serve(ranked, s, next);
    if HasFullTask(s, topic) {
      var j :| 0 <= j < |s.tasks| && s.tasks[j].topic == topic && |s.tasks[j].picked| == 5;
      assert t.tasks[j] == s.tasks[j];
    }
  }

  lemma {:induction false} DayExhausts(ranked: seq<Q.Candidate>, topics: seq<nat>, minutes: int, taken: set<nat>,
      k: nat, j: nat)
    requires j < k <= |topics|
    ensures Exhausted(ranked, Q.DayOfFirst(ranked, topics, minutes, taken, k), topics[j])
  {
    var s := Q.DayOfFirst(ranked, topics, minutes, taken, k - 1);
    if j < k - 1 {
      DayExhausts(ranked, topics, minutes, taken, k - 1, j);
      ExhaustedStays(ranked, s, topics[j], topics[k - 1]);
    } else {
      StoppedIsShort(ranked, topics, minutes, taken, k - 1);
      ServedIsExhausted(ranked, s, topics[j]);
    }
  }

  lemma {:induction false} StoppedIsShort(ranked: seq<Q.Candidate>, topics: seq<nat>, minutes: int, taken: set<nat>,
      k: nat)
    requires k <= |topics|
    ensures var s := Q.DayOfFirst(ranked, topics, minutes, taken, k); s.stopped ==> s.remaining < Q.Shortest(ranked)
  {
    if k > 0 {
      StoppedIsShort(ranked, topics, minutes, taken, k - 1);
      ServedStopsShort(ranked, Q.DayOfFirst(ranked, topics, minutes, taken, k - 1), topics[k - 1]);
    }
  }

  lemma {:induction false} ServedStopsShort(ranked: seq<Q.Candidate>, s: Q.QuestionDay, topic: nat)
    requires s.stopped ==> s.remaining < Q.Shortest(ranked)
    ensures var t := Q.Serve(ranked, s, topic); t.stopped ==> t.remaining < Q.Shortest(ranked)
  {
  }

  // A question that is not asked by the end of a day, although its topic has a priority and it would fit into what
  // is left of the day, gave way to a task of five questions of its topic on that day.
  lemma {:induction false} LeftOutForAFullTask(ranked: seq<Q.Candidate>, topics: seq<nat>, days: seq<Day>,
      excluded: set<nat>,
      d: nat, j: nat, i: nat)
    requires d < |days| && j < |topics| && i < |ranked| && ranked[i].knowledgeId == topics[j]
    requires
      var s := Q.DayOf(ranked, topics, days, excluded, d);
      ranked[i].questionId !in s.taken && ranked[i].minutes <= s.remaining
    ensures HasFullTask(Q.DayOf(ranked, topics, days, excluded, d), topics[j])
  {
    DayExhausts(ranked, topics, days[d].minutes, Q.TakenBefore(ranked, topics, days, excluded, d), |topics|, j);
  }

  // What is taken at the end of a day is what was excluded and what the tasks up to then ask.
  lemma {:induction false} TakenIsAsked(ranked: seq<Q.Candidate>, topics: seq<nat>, minutes: int, taken: set<nat>,
      k: nat, id: nat)
    requires k <= |topics|
    ensures
      var s := Q.DayOfFirst(ranked, topics, minutes, taken, k);
      id in s.taken <==> id in taken || AskedIn(ranked, s.tasks, id)
  {
    if k > 0 {
      TakenIsAsked(ranked, topics, minutes, taken, k - 1, id);
      ServedIsAsked(ranked, Q.DayOfFirst(ranked, topics, minutes, taken, k - 1), topics[k - 1], id);
    }
  }

  predicate Asks(ranked: seq<Q.Candidate>, t: Q.QuestionTask, id: nat) {
    exists p :: 0 <= p < |t.picked| && t.picked[p] < |ranked| && ranked[t.picked[p]].questionId == id
  }

  predicate AskedIn(ranked: seq<Q.Candidate>, tasks: seq<Q.QuestionTask>, id: nat) {
    exists t :: 0 <= t < |tasks| && Asks(ranked, tasks[t], id)
  }

  lemma {:induction false} ServedIsAsked(ranked: seq<Q.Candidate>, s: Q.QuestionDay, topic: nat, id: nat)
    ensures
      var after := Q.Serve(ranked, s, topic);
      (AskedIn(ranked, s.tasks, id) ==> AskedIn(ranked, after.tasks, id)) && s.taken <= after.taken
      && (id in after.taken ==> id in s.taken || AskedIn(ranked, after.tasks, id))
      && (AskedIn(ranked, after.tasks, id) ==> AskedIn(ranked, s.tasks, id) || id in after.taken)
  {
    var after := Q.Serve(ranked, s, topic);
    Q.ServeIsGood(ranked, s, topic);
    if after != s { AskedOneMore(ranked, s.tasks, after.tasks[|s.tasks|], id); }
  }

  lemma {:induction false} AskedOneMore(ranked: seq<Q.Candidate>, tasks: seq<Q.QuestionTask>, last: Q.QuestionTask,
      id: nat)
    ensures AskedIn(ranked, tasks + [last], id) <==> AskedIn(ranked, tasks, id) || Asks(ranked, last, id)
  {
    var more := tasks + [last];
    assert forall t :: 0 <= t < |tasks| ==> more[t] == tasks[t];
    assert more[|tasks|] == last;
  }

  // The tasks of a day are in the order of the priorities.
  ghost predicate FollowsPriorities(topics: seq<nat>, k: nat, tasks: seq<Q.QuestionTask>, places: seq<nat>) {
    && k <= |topics| && |places| == |tasks|
    && (forall t :: 0 <= t < |tasks| ==> places[t] < k && tasks[t].topic == topics[places[t]])
    && (forall t, u :: 0 <= t < u < |places| ==> places[t] < places[u])
  }

  lemma {:induction false} TasksFollowPriorities(ranked: seq<Q.Candidate>, topics: seq<nat>, minutes: int,
      taken: set<nat>, k: nat)
    returns (places: seq<nat>)
    requires k <= |topics|
    ensures FollowsPriorities(topics, k, Q.DayOfFirst(ranked, topics, minutes, taken, k).tasks, places)
  {
    places := [];
    if k > 0 {
      places := TasksFollowPriorities(ranked, topics, minutes, taken, k - 1);
      var s := Q.DayOfFirst(ranked, topics, minutes, taken, k - 1);
      places := ServedFollows(ranked, topics, k - 1, s, places);
    }
  }

  lemma {:induction false} ServedFollows(ranked: seq<Q.Candidate>, topics: seq<nat>, k: nat, s: Q.QuestionDay,
      places: seq<nat>) returns (more: seq<nat>)
    requires k < |topics| && FollowsPriorities(topics, k, s.tasks, places)
    ensures FollowsPriorities(topics, k + 1, Q.Serve(ranked, s, topics[k]).tasks, more)
  {
    Q.ServeIsGood(ranked, s, topics[k]);
    more := if Q.Serve(ranked, s, topics[k]) != s then places + [k] else places;
  }
}
