// app/domain/planning/planner.py: greedy packing of a week.  Days are numbered by their place in the
// availability list; the candidates are already ranked, as `sorted(..., reverse=True)` leaves them.
module PlannerSpec {
  import opened Wrappers

  datatype Day = Day(date: int, minutes: int)

  // ---- Learning tasks ----------------------------------------------------------------------

  datatype LearningCandidate = LearningCandidate(knowledgeId: string, taskType: string, taskIdentity: Option<string>, minutes: nat)

  function Identity(c: LearningCandidate): string {
    if c.taskIdentity.Some? && c.taskIdentity.value != "" then c.taskIdentity.value else c.knowledgeId + ":" + c.taskType
  }

  const SHORTEST_REST := 15

  // A day while candidates are considered: which ranks were picked, what is left, which identities are
  // taken, and whether the loop has ended.
  datatype DayFill = DayFill(picked: seq<nat>, remaining: int, taken: set<string>, stopped: bool)

  function FillStep(ranked: seq<LearningCandidate>, s: DayFill, i: nat): DayFill
    requires i < |ranked|
  {
    var c := ranked[i];
    if s.stopped || Identity(c) in s.taken || c.minutes > s.remaining then s
    else DayFill(s.picked + [i], s.remaining - c.minutes, s.taken + {Identity(c)}, s.remaining - c.minutes < SHORTEST_REST)
  }

  // The day after the first `k` candidates.
  function FillOfFirst(ranked: seq<LearningCandidate>, minutes: int, taken: set<string>, k: nat): DayFill
    requires k <= |ranked|
  {
    if k == 0 then DayFill([], minutes, taken, false)
    else FillStep(ranked, FillOfFirst(ranked, minutes, taken, k - 1), k - 1)
  }

  function FillDay(ranked: seq<LearningCandidate>, minutes: int, taken: set<string>): DayFill {
    FillOfFirst(ranked, minutes, taken, |ranked|)
  }

  // Identities taken before day `d`.
  function TakenBefore(ranked: seq<LearningCandidate>, days: seq<Day>, d: nat): set<string>
    requires d <= |days|
    decreases d, 0
  {
    if d == 0 then {} else DayOf(ranked, days, d - 1).taken
  }

  function DayOf(ranked: seq<LearningCandidate>, days: seq<Day>, d: nat): DayFill
    requires d < |days|
    decreases d, 1
  {
    FillDay(ranked, days[d].minutes, TakenBefore(ranked, days, d))
  }

  function MinutesOfFirst(ranked: seq<LearningCandidate>, picked: seq<nat>, k: nat): nat
    requires k <= |picked| && forall i :: 0 <= i < |picked| ==> picked[i] < |ranked|
  {
    if k == 0 then 0 else MinutesOfFirst(ranked, picked, k - 1) + ranked[picked[k - 1]].minutes
  }

  lemma {:induction false} MinutesOfPrefix(ranked: seq<LearningCandidate>, picked: seq<nat>, last: nat, k: nat)
    requires k <= |picked| && last < |ranked| && forall i :: 0 <= i < |picked| ==> picked[i] < |ranked|
    ensures MinutesOfFirst(ranked, picked + [last], k) == MinutesOfFirst(ranked, picked, k)
  {
    if k > 0 { MinutesOfPrefix(ranked, picked, last, k - 1); }
  }

  ghost predicate Ranks(ranked: seq<LearningCandidate>,
      picked: seq<nat>) { forall i :: 0 <= i < |picked| ==> picked[i] < |ranked| }

  // A day's tasks fill its minutes up to what is left, and never more than there are.
  ghost predicate Packed(ranked: seq<LearningCandidate>, minutes: int, s: DayFill) {
    && Ranks(ranked, s.picked)
    && MinutesOfFirst(ranked, s.picked, |s.picked|) + s.remaining == minutes
    && (s.picked != [] ==> s.remaining >= 0)
    && (s.stopped ==> s.remaining < SHORTEST_REST)
  }

  lemma {:induction false} DayIsPacked(ranked: seq<LearningCandidate>, minutes: int, taken: set<string>, k: nat)
    requires k <= |ranked|
    ensures Packed(ranked, minutes, FillOfFirst(ranked, minutes, taken, k))
  {
    if k > 0 {
      DayIsPacked(ranked, minutes, taken, k - 1);
      var s := FillOfFirst(ranked, minutes, taken, k - 1);
      MinutesOfPrefix(ranked, s.picked, k - 1, |s.picked|);
    }
  }

  // The picked identities are new and pairwise different.
  ghost predicate NewIdentities(ranked: seq<LearningCandidate>, taken: set<string>, s: DayFill) {
    && Ranks(ranked, s.picked) && taken <= s.taken
    && (forall i :: 0 <= i < |s.picked| ==> Identity(ranked[s.picked[i]]) !in taken && Identity(ranked[s.picked[i]]) in s.taken)
    && (forall i, j :: 0 <= i < j < |s.picked| ==> Identity(ranked[s.picked[i]]) != Identity(ranked[s.picked[j]]))
  }

  lemma {:induction false} DayIdentities(ranked: seq<LearningCandidate>, minutes: int, taken: set<string>, k: nat)
    requires k <= |ranked|
    ensures NewIdentities(ranked, taken, FillOfFirst(ranked, minutes, taken, k))
  {
    if k > 0 { DayIdentities(ranked, minutes, taken, k - 1); }
  }

  // What a day adds to the taken identities it has picked.
  lemma {:induction false} TakenIsPicked(ranked: seq<LearningCandidate>, minutes: int, taken: set<string>, k: nat,
      id: string) returns (i: nat)
    requires k <= |ranked| && id in FillOfFirst(ranked, minutes, taken, k).taken && id !in taken
    ensures
      var s := FillOfFirst(ranked, minutes, taken, k);
      i < |s.picked| && s.picked[i] < |ranked| && Identity(ranked[s.picked[i]]) == id
  {
    var s := FillOfFirst(ranked, minutes, taken, k - 1);
    if id in s.taken {
      i := TakenIsPicked(ranked, minutes, taken, k - 1, id);
    } else {
      i := |s.picked|;
    }
  }

  // A candidate that is not taken at the end of the day did not fit, unless it is shorter than the rest
  // with which the day ends.
  lemma {:induction false} LeftOutDoesNotFit(ranked: seq<LearningCandidate>, minutes: int, taken: set<string>, k: nat,
      i: nat)
    requires i < k <= |ranked| && ranked[i].minutes >= SHORTEST_REST
    ensures
      var s := FillOfFirst(ranked, minutes, taken, k);
      Identity(ranked[i]) !in s.taken ==> ranked[i].minutes > s.remaining
  {
    DayIsPacked(ranked, minutes, taken, k - 1);
    if i < k - 1 { LeftOutDoesNotFit(ranked, minutes, taken, k - 1, i); }
  }

  lemma {:induction false} TakenGrows(ranked: seq<LearningCandidate>, days: seq<Day>, d: nat, e: nat)
    requires d <= e <= |days|
    ensures TakenBefore(ranked, days, d) <= TakenBefore(ranked, days, e)
  {
    if d < e {
      TakenGrows(ranked, days, d, e - 1);
      DayIdentities(ranked, days[e - 1].minutes, TakenBefore(ranked, days, e - 1), |ranked|);
    }
  }

  // No day is overfilled.
  lemma {:induction false} WeekFitsItsDays(ranked: seq<LearningCandidate>, days: seq<Day>, d: nat)
    requires d < |days|
    ensures
      var s := DayOf(ranked, days, d);
      && Ranks(ranked, s.picked)
      && MinutesOfFirst(ranked, s.picked, |s.picked|) <= if days[d].minutes > 0 then days[d].minutes else 0
  {
    DayIsPacked(ranked, days[d].minutes, TakenBefore(ranked, days, d), |ranked|);
  }

  // No task is scheduled twice, on one day or on two.
  lemma {:induction false} WeekRepeatsNothing(ranked: seq<LearningCandidate>, days: seq<Day>, d: nat, e: nat, i: nat,
      j: nat)
    requires d <= e < |days| && i < |DayOf(ranked, days, d).picked| && j < |DayOf(ranked, days, e).picked| && (d, i) != (e, j)
    ensures
      var a, b := DayOf(ranked, days, d).picked[i], DayOf(ranked, days, e).picked[j];
      a < |ranked| && b < |ranked| && Identity(ranked[a]) != Identity(ranked[b])
  {
    DayIdentities(ranked, days[d].minutes, TakenBefore(ranked, days, d), |ranked|);
    DayIdentities(ranked, days[e].minutes, TakenBefore(ranked, days, e), |ranked|);
    if d < e { TakenGrows(ranked, days, d + 1, e); }
  }

  // Is a task of this identity on some day?
  predicate Scheduled(ranked: seq<LearningCandidate>, days: seq<Day>, c: LearningCandidate) {
    exists d :: 0 <= d < |days| && OnDay(ranked, days, d, Identity(c))
  }

  predicate OnDay(ranked: seq<LearningCandidate>, days: seq<Day>, d: nat, id: string)
    requires d < |days|
  {
    exists i :: 0 <= i < |DayOf(ranked, days, d).picked| && DayOf(ranked, days, d).picked[i] < |ranked|
                && Identity(ranked[DayOf(ranked, days, d).picked[i]]) == id
  }

  lemma {:induction false} TakenIsOnDay(ranked: seq<LearningCandidate>, days: seq<Day>, d: nat,
      id: string) returns (e: nat)
    requires d <= |days| && id in TakenBefore(ranked, days, d)
    ensures e < d && OnDay(ranked, days, e, id)
  {
    if id in TakenBefore(ranked, days, d - 1) {
      e := TakenIsOnDay(ranked, days, d - 1, id);
    } else {
      e := d - 1;
      var i := TakenIsPicked(ranked, days[d - 1].minutes, TakenBefore(ranked, days, d - 1), |ranked|, id);
    }
  }

  // The week is maximal: a left-out candidate of at least fifteen minutes fits into no day's final slack.
  lemma {:induction false} WeekIsMaximal(ranked: seq<LearningCandidate>, days: seq<Day>, i: nat, d: nat)
    requires i < |ranked| && d < |days| && ranked[i].minutes >= SHORTEST_REST && !Scheduled(ranked, days, ranked[i])
    ensures ranked[i].minutes > DayOf(ranked, days, d).remaining
  {
    if Identity(ranked[i]) in DayOf(ranked, days, d).taken {
      var e := TakenIsOnDay(ranked, days, d + 1, Identity(ranked[i]));
    }
    LeftOutDoesNotFit(ranked, days[d].minutes, TakenBefore(ranked, days, d), |ranked|, i);
  }

  // A week that leaves out a candidate of `m` minutes although it fits into some day's final slack.
  predicate LeavesOutFitting(ranked: seq<LearningCandidate>, days: seq<Day>, i: nat, d: nat, m: nat) {
    && i < |ranked| && d < |days| && ranked[i].minutes == m
    && !Scheduled(ranked, days, ranked[i]) && DayOf(ranked, days, d).remaining >= m
  }

  // Whatever a candidate shorter than fifteen minutes asks for, some week leaves it out although it fits.
  lemma {:induction false} ShortTaskIsLeftOut(m: nat) returns (ranked: seq<LearningCandidate>, days: seq<Day>)
    requires m < SHORTEST_REST
    ensures LeavesOutFitting(ranked, days, 1, 0, m)
  {
    ranked := [LearningCandidate("a", "LEARN", None, 20), LearningCandidate("b", "LEARN", None, m)];
    days := [Day(0, 20 + m)];
    assert Identity(ranked[0]) == "a:LEARN" && Identity(ranked[1])[0] == 'b';
    var s0 := DayFill([], 20 + m, {}, false);
    assert TakenBefore(ranked, days, 0) == {} && FillOfFirst(ranked, 20 + m, {}, 0) == s0;
    var s1 := FillStep(ranked, s0, 0);
    assert FillOfFirst(ranked, 20 + m, {}, 1) == s1 && s1.stopped && s1.taken == {Identity(ranked[0])};
    assert FillOfFirst(ranked, 20 + m, {}, 2) == s1;
    assert DayOf(ranked, days, 0) == s1 && s1.picked == [0];
    assert !OnDay(ranked, days, 0, Identity(ranked[1]));
  }

  // The lengths for which every week is maximal are exactly those of at least fifteen minutes.
  lemma {:induction false} MaximalIffLongEnough(m: nat)
    ensures (forall ranked, days, i: nat, d: nat :: !LeavesOutFitting(ranked, days, i, d, m)) <==> m >= SHORTEST_REST
  {
    if m >= SHORTEST_REST {
      forall ranked, days, i: nat, d: nat ensures !LeavesOutFitting(ranked, days, i, d, m) {
        if LeavesOutFitting(ranked, days, i, d, m) { WeekIsMaximal(ranked, days, i, d); }
      }
    } else {
      var ranked, days := ShortTaskIsLeftOut(m);
      assert LeavesOutFitting(ranked, days, 1, 0, m);
    }
  }
}
