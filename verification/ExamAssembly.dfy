// app/application/mock_exams.py, the assembly of a paper: slots, selection and validation put together.
module ExamAssembly {
  import opened Wrappers
  import opened OrderedCounts
  import opened ExamSlots
  import opened ExamSelection
  import opened ExamValidation
  import opened ExamReview
  import opened Rounding

  // The counts a caller may pass: one slot per question, in both lists.
  ghost predicate Wanted(d: Counts, questionCount: nat) { d.Valid() && d.NonNegative() && d.Total() == questionCount }

  const TOLERANCE := 0.001

  function Ratios(d: Counts, questionCount: nat): map<Label, real>
    requires questionCount > 0
  {
    map key | key in d.at :: d.at[key] as real / questionCount as real
  }

  // The specification and the questions of `_validate_selection`.
  function SpecFor(totalScore: int, questionCount: nat, knowledge: Counts, difficulty: Counts): ExamSpec
    requires questionCount > 0
  {
    ExamSpec(totalScore, questionCount, difficulty.keys, Ratios(difficulty, questionCount),
             knowledge.keys, Ratios(knowledge, questionCount), TOLERANCE)
  }

  function QuestionsFor(selected: seq<Row>, score: int): seq<ExamQuestion> {
    seq(|selected|, i requires 0 <= i < |selected| =>
      ExamQuestion(selected[i].question.id, score, selected[i].question.difficulty, selected[i].topic,
                   selected[i].question.answered, selected[i].question.valid))
  }

  function RunFor(rows: seq<Row>, attempted: set<nat>, knowledge: Counts, difficulty: Counts): Run {
    Run(rows, attempted, ZipStrict(KnowledgeSlots(knowledge), BalancedSlots(difficulty)).GetOr([]))
  }

  lemma {:induction false} RunHasAllSlots(rows: seq<Row>, attempted: set<nat>, knowledge: Counts, difficulty: Counts,
      questionCount: nat)
    requires Wanted(knowledge, questionCount) && Wanted(difficulty, questionCount)
    ensures
      var slots := RunFor(rows, attempted, knowledge, difficulty).slots;
      && ZipStrict(KnowledgeSlots(knowledge), BalancedSlots(difficulty)) == Some(slots)
      && |slots| == questionCount == |KnowledgeSlots(knowledge)| == |BalancedSlots(difficulty)|
  {
    SlotsLength(knowledge);
    SlotsLength(difficulty);
  }

  predicate AllAnswered(selected: seq<Row>) { forall i :: 0 <= i < |selected| ==> selected[i].question.answered }

  // ---- A complete selection matches its distributions --------------------------------------

  lemma {:induction false} CompleteRunFollowsSlots(run: Run, k: nat)
    requires k <= |run.slots| && run.CompleteUpTo(k)
    ensures SlotsOf(run.Chosen(k)) == run.slots[..k] && |run.Chosen(k)| == k
  {
    if k > 0 {
      CompleteRunFollowsSlots(run, k - 1);
      PickFits(run, k - 1);
      assert SlotsOf(run.Chosen(k)) == SlotsOf(run.Chosen(k - 1)) + [run.slots[k - 1]];
    }
  }

  lemma {:induction false} BlocksAreExact(d: Counts, k: nat, i: nat)
    requires d.Valid() && d.NonNegative() && k <= |d.keys| && i < |d.keys|
    ensures Occurs(BlocksOfFirst(d, k), d.keys[i]) == if i < k then d.Get(d.keys[i]) else 0
  {
    if k > 0 {
      var last := d.keys[k - 1];
      BlocksAreExact(d, k - 1, i);
      RepeatOccurs(last, d.Get(last), d.keys[i]);
      OccursInBoth(BlocksOfFirst(d, k - 1), Repeat(last, d.Get(last)), d.keys[i]);
      assert last == d.keys[i] <==> i == k - 1;
    }
  }

  lemma {:induction false} ExactIsClose(d: Counts, values: seq<Label>, questionCount: nat)
    requires d.Valid() && questionCount > 0 && |values| == questionCount
    requires forall i :: 0 <= i < |d.keys| ==> Occurs(values, d.keys[i]) == d.Get(d.keys[i])
    ensures Close(values, d.keys, Ratios(d, questionCount), TOLERANCE)
  {
    forall i | 0 <= i < |d.keys| ensures CloseAt(values, Ratios(d, questionCount), d.keys[i], TOLERANCE) {
      assert Occurs(values, d.keys[i]) == d.at[d.keys[i]];
    }
  }

  lemma {:induction false} CompleteRunIsClose(run: Run, knowledge: Counts, difficulty: Counts, questionCount: nat,
      score: int)
    requires questionCount > 0 && Wanted(knowledge, questionCount) && Wanted(difficulty, questionCount)
    requires run == RunFor(run.rows, run.attempted, knowledge, difficulty) && run.Complete()
    ensures
      var qs := QuestionsFor(run.Chosen(|run.slots|), score);
      && |qs| == questionCount
      && Close(Difficulties(qs), difficulty.keys, Ratios(difficulty, questionCount), TOLERANCE)
      && Close(Topics(qs), knowledge.keys, Ratios(knowledge, questionCount), TOLERANCE)
  {
    RunHasAllSlots(run.rows, run.attempted, knowledge, difficulty, questionCount);
    CompleteRunFollowsSlots(run, |run.slots|);
    var chosen := run.Chosen(|run.slots|);
    var qs := QuestionsFor(chosen, score);
    assert run.slots[..|run.slots|] == run.slots;
    forall i | 0 <= i < |chosen|
      ensures chosen[i].topic == KnowledgeSlots(knowledge)[i] && chosen[i].question.difficulty == BalancedSlots(difficulty)[i]
    {
      assert SlotsOf(chosen)[i] == run.slots[i];
    }
    assert Difficulties(qs) == BalancedSlots(difficulty);
    assert Topics(qs) == KnowledgeSlots(knowledge);
    forall i | 0 <= i < |difficulty.keys| ensures Occurs(BalancedSlots(difficulty), difficulty.keys[i]) == difficulty.Get(difficulty.keys[i]) {
      SlotsAreExact(difficulty, i);
    }
    forall i | 0 <= i < |knowledge.keys| ensures Occurs(KnowledgeSlots(knowledge), knowledge.keys[i]) == knowledge.Get(knowledge.keys[i]) {
      BlocksAreExact(knowledge, |knowledge.keys|, i);
    }
    ExactIsClose(difficulty, BalancedSlots(difficulty), questionCount);
    ExactIsClose(knowledge, KnowledgeSlots(knowledge), questionCount);
  }

  lemma {:induction false} EqualScores(selected: seq<Row>, score: int, k: nat)
    requires k <= |selected|
    ensures ScoreOfFirst(QuestionsFor(selected, score), k) == k * score
  {
    if k > 0 { EqualScores(selected, score, k - 1); }
  }

  // ---- The selector and the validator agree ------------------------------------------------

  predicate Divides(questionCount: nat, totalScore: int)
    requires questionCount > 0
  {
    totalScore % questionCount == 0
  }

  // A selection is valid exactly when every slot was filled, the score splits evenly, and every chosen
  // question has an answer.
  lemma {:induction false} SelectorAndValidatorAgree(rows: seq<Row>, attempted: set<nat>, knowledge: Counts,
      difficulty: Counts,
                                  questionCount: nat, totalScore: int)
    requires questionCount > 0 && Wanted(knowledge, questionCount) && Wanted(difficulty, questionCount) && Consistent(rows)
    ensures
      var run := RunFor(rows, attempted, knowledge, difficulty);
      var chosen := run.Chosen(|run.slots|);
      ValidPaper(SpecFor(totalScore, questionCount, knowledge, difficulty), QuestionsFor(chosen, totalScore / questionCount))
      <==> run.Complete() && Divides(questionCount, totalScore) && AllAnswered(chosen)
  {
    var run := RunFor(rows, attempted, knowledge, difficulty);
    RunHasAllSlots(rows, attempted, knowledge, difficulty, questionCount);
    if run.Complete() && Divides(questionCount, totalScore) && AllAnswered(run.Chosen(|run.slots|)) {
      CompleteIsValid(run, knowledge, difficulty, questionCount, totalScore);
    }
    if ValidPaper(SpecFor(totalScore, questionCount, knowledge, difficulty),
                  QuestionsFor(run.Chosen(|run.slots|), totalScore / questionCount)) {
      ValidIsComplete(run, SpecFor(totalScore, questionCount, knowledge, difficulty), totalScore / questionCount);
      EvenSplit(questionCount, totalScore);
    }
  }

  lemma {:induction false} ValidIsComplete(run: Run, spec: ExamSpec, score: int)
    requires spec.questionCount == |run.slots| > 0 && WellFormed(spec)
    requires ValidPaper(spec, QuestionsFor(run.Chosen(|run.slots|), score))
    ensures run.Complete() && AllAnswered(run.Chosen(|run.slots|)) && spec.questionCount * score == spec.totalScore
  {
    var chosen := run.Chosen(|run.slots|);
    ChosenAndUnfilled(run, |run.slots|);
    EqualScores(chosen, score, |chosen|);
    ValidIsAnswered(spec, chosen, score);
  }

  lemma {:induction false} CompleteIsValid(run: Run, knowledge: Counts, difficulty: Counts, questionCount: nat,
      totalScore: int)
    requires questionCount > 0 && Wanted(knowledge, questionCount) && Wanted(difficulty, questionCount)
    requires run == RunFor(run.rows, run.attempted, knowledge, difficulty) && Consistent(run.rows)
    requires run.Complete() && Divides(questionCount, totalScore) && AllAnswered(run.Chosen(|run.slots|))
    ensures ValidPaper(SpecFor(totalScore, questionCount, knowledge, difficulty),
                       QuestionsFor(run.Chosen(|run.slots|), totalScore / questionCount))
  {
    var chosen := run.Chosen(|run.slots|);
    var qs := QuestionsFor(chosen, totalScore / questionCount);
    CompleteRunIsClose(run, knowledge, difficulty, questionCount, totalScore / questionCount);
    EqualScores(chosen, totalScore / questionCount, |chosen|);
    EvenSplit(questionCount, totalScore);
    ChosenAreFresh(run, |run.slots|);
    assert Distinct(qs);
  }

  lemma {:induction false} ValidIsAnswered(spec: ExamSpec, chosen: seq<Row>, score: int)
    requires WellFormed(spec) && ValidPaper(spec, QuestionsFor(chosen, score))
    ensures AllAnswered(chosen)
  {
    forall i | 0 <= i < |chosen| ensures chosen[i].question.answered {
      assert QuestionsFor(chosen, score)[i].hasAnswer;
    }
  }

  lemma {:induction false} EvenSplit(questionCount: nat, totalScore: int)
    requires questionCount > 0
    ensures questionCount * (totalScore / questionCount) == totalScore <==> Divides(questionCount, totalScore)
  {
  }

  // A score that does not split evenly keeps the paper waiting, whatever is published.
  lemma {:induction false} UnevenScoreNeverPublishes(rows: seq<Row>, attempted: set<nat>, knowledge: Counts,
      difficulty: Counts,
                                  questionCount: nat, totalScore: int)
    requires questionCount > 0 && Wanted(knowledge, questionCount) && Wanted(difficulty, questionCount) && Consistent(rows)
    requires !Divides(questionCount, totalScore)
    ensures
      var run := RunFor(rows, attempted, knowledge, difficulty);
      !ValidPaper(SpecFor(totalScore, questionCount, knowledge, difficulty),
                  QuestionsFor(run.Chosen(|run.slots|), totalScore / questionCount))
  {
    SelectorAndValidatorAgree(rows, attempted, knowledge, difficulty, questionCount, totalScore);
  }

  // ---- After the review --------------------------------------------------------------------

  // Publishing one question per missing pair makes the next assembly valid, if the score splits evenly
  // and the chosen questions have answers.
  lemma {:induction false} ReviewPublishesThePaper(v: Review, knowledge: Counts, difficulty: Counts,
      questionCount: nat, totalScore: int)
    requires questionCount > 0 && Wanted(knowledge, questionCount) && Wanted(difficulty, questionCount)
    requires v.Valid() && v.OnePerMissing()
    requires v.before == RunFor(v.before.rows, v.before.attempted, knowledge, difficulty)
    ensures
      var chosen := v.after.Chosen(|v.after.slots|);
      ValidPaper(SpecFor(totalScore, questionCount, knowledge, difficulty), QuestionsFor(chosen, totalScore / questionCount))
      <==> Divides(questionCount, totalScore) && AllAnswered(chosen)
  {
    RunHasAllSlots(v.before.rows, v.before.attempted, knowledge, difficulty, questionCount);
    BlocksAreContiguous(knowledge, |knowledge.keys|);
    BlocksMakeTopicsContiguous(knowledge, v.before.slots);
    ReviewCompletesThePaper(v);
    assert v.after == RunFor(v.after.rows, v.after.attempted, knowledge, difficulty);
    SelectorAndValidatorAgree(v.after.rows, v.after.attempted, knowledge, difficulty, questionCount, totalScore);
  }

  lemma {:induction false} BlocksMakeTopicsContiguous(knowledge: Counts, slots: seq<Slot>)
    requires Contiguous(KnowledgeSlots(knowledge)) && |slots| == |KnowledgeSlots(knowledge)|
    requires forall i :: 0 <= i < |slots| ==> slots[i].topic == KnowledgeSlots(knowledge)[i]
    ensures TopicsContiguous(slots)
  {
  }

  // ---- Counts that are not wanted ----------------------------------------------------------

  function Truncate(chosen: seq<Row>, questionCount: nat): seq<Row> {
    if |chosen| <= questionCount then chosen else chosen[..questionCount]
  }

  // How many of the first `n` values are one of the first `k` keys.
  function TotalOccurs(values: seq<Label>, keys: seq<Label>, n: nat, k: nat): nat
    requires n <= |values| && k <= |keys|
  {
    if k == 0 then 0 else TotalOccurs(values, keys, n, k - 1) + OccursInFirst(values, keys[k - 1], n)
  }

  lemma {:induction false} OneMoreValue(values: seq<Label>, keys: seq<Label>, n: nat, k: nat)
    requires n < |values| && k <= |keys| && forall i, j :: 0 <= i < j < |keys| ==> keys[i] != keys[j]
    ensures TotalOccurs(values, keys, n + 1, k) == TotalOccurs(values, keys, n, k) + if values[n] in keys[..k] then 1 else 0
  {
    if k > 0 {
      OneMoreValue(values, keys, n, k - 1);
      assert keys[..k] == keys[..k - 1] + [keys[k - 1]];
      assert keys[k - 1] !in keys[..k - 1];
    }
  }

  lemma {:induction false} NoValues(values: seq<Label>, keys: seq<Label>, k: nat)
    requires k <= |keys|
    ensures TotalOccurs(values, keys, 0, k) == 0
  {
    if k > 0 { NoValues(values, keys, k - 1); }
  }

  lemma {:induction false} EveryValueIsCounted(values: seq<Label>, keys: seq<Label>, n: nat)
    requires n <= |values| && forall i, j :: 0 <= i < j < |keys| ==> keys[i] != keys[j]
    requires forall i :: 0 <= i < |values| ==> values[i] in keys
    ensures TotalOccurs(values, keys, n, |keys|) == n
  {
    if n == 0 {
      NoValues(values, keys, |keys|);
    } else {
      EveryValueIsCounted(values, keys, n - 1);
      OneMoreValue(values, keys, n - 1, |keys|);
      assert keys[..|keys|] == keys;
    }
  }

  lemma {:induction false} TotalIsTotalOccurs(d: Counts, values: seq<Label>, k: nat)
    requires d.Valid() && k <= |d.keys| && forall i :: 0 <= i < |d.keys| ==> Occurs(values, d.keys[i]) == d.Get(d.keys[i])
    ensures d.TotalOfFirst(k) == TotalOccurs(values, d.keys, |values|, k)
  {
    if k > 0 { TotalIsTotalOccurs(d, values, k - 1); }
  }

  // Below a thousand questions the tolerance leaves no room: close means equal.
  predicate Exacting(questionCount: nat) { questionCount as real * TOLERANCE < 1.0 }

  lemma {:induction false} CloseIsEqual(questionCount: nat, occurs: nat, count: int)
    requires questionCount > 0 && Exacting(questionCount)
    requires Abs(occurs as real / questionCount as real - count as real / questionCount as real) <= TOLERANCE
    ensures occurs == count
  {
    var q, gap := questionCount as real, occurs as real / questionCount as real - count as real / questionCount as real;
    assert gap * q == occurs as real - count as real;
    assert -TOLERANCE * q <= gap * q <= TOLERANCE * q;
    assert -1.0 < (occurs - count) as real < 1.0;
  }

  lemma {:induction false} CloseMeansWanted(d: Counts, values: seq<Label>, questionCount: nat)
    requires d.Valid() && questionCount > 0 && Exacting(questionCount) && |values| == questionCount
    requires forall i :: 0 <= i < |values| ==> values[i] in d.keys
    requires Close(values, d.keys, Ratios(d, questionCount), TOLERANCE)
    ensures Wanted(d, questionCount)
  {
    forall i | 0 <= i < |d.keys| ensures Occurs(values, d.keys[i]) == d.Get(d.keys[i]) {
      assert CloseAt(values, Ratios(d, questionCount), d.keys[i], TOLERANCE);
      CloseIsEqual(questionCount, Occurs(values, d.keys[i]), d.at[d.keys[i]]);
    }
    TotalIsTotalOccurs(d, values, |d.keys|);
    EveryValueIsCounted(values, d.keys, |values|);
  }

  lemma {:induction false} RoundHasOnlyKeys(d: Counts, t: nat, j: nat)
    requires j <= |d.keys|
    ensures forall i :: 0 <= i < |Round(d, t, j)| ==> Round(d, t, j)[i] in d.keys
  {
    if j > 0 { RoundHasOnlyKeys(d, t, j - 1); }
  }

  lemma {:induction false} RoundsHaveOnlyKeys(d: Counts, t: nat)
    ensures forall i :: 0 <= i < |Rounds(d, t)| ==> Rounds(d, t)[i] in d.keys
  {
    if t > 0 {
      RoundsHaveOnlyKeys(d, t - 1);
      RoundHasOnlyKeys(d, t - 1, |d.keys|);
    }
  }

  lemma {:induction false} SlotsHaveOnlyKeys(knowledge: Counts, difficulty: Counts, slots: seq<Slot>)
    requires knowledge.Valid() && ZipStrict(KnowledgeSlots(knowledge), BalancedSlots(difficulty)) == Some(slots)
    ensures forall i :: 0 <= i < |slots| ==> slots[i].topic in knowledge.keys && slots[i].difficulty in difficulty.keys
  {
    BlocksAreContiguous(knowledge, |knowledge.keys|);
    RoundsHaveOnlyKeys(difficulty, MostOfFirst(difficulty, |difficulty.keys|));
  }

  lemma {:induction false} ChosenAreSlots(run: Run, k: nat)
    requires k <= |run.slots|
    ensures forall i :: 0 <= i < |run.Chosen(k)| ==> SlotOf(run.Chosen(k)[i]) in run.slots
  {
    if k > 0 {
      ChosenAreSlots(run, k - 1);
      if run.Pick(k - 1).Some? {
        PickFits(run, k - 1);
        assert SlotOf(run.Pick(k - 1).value) == run.slots[k - 1];
      }
    }
  }

  // Counts with a negative entry or of another sum never lead to a valid paper.
  lemma {:induction false} ValidNeedsWanted(rows: seq<Row>, attempted: set<nat>, knowledge: Counts, difficulty: Counts,
                                            questionCount: nat, totalScore: int)
    requires questionCount > 0 && Exacting(questionCount) && knowledge.Valid() && difficulty.Valid()
    requires ZipStrict(KnowledgeSlots(knowledge), BalancedSlots(difficulty)).Some?
    ensures
      var run := RunFor(rows, attempted, knowledge, difficulty);
      ValidPaper(SpecFor(totalScore, questionCount, knowledge, difficulty),
                 QuestionsFor(Truncate(run.Chosen(|run.slots|), questionCount), totalScore / questionCount))
      ==> Wanted(knowledge, questionCount) && Wanted(difficulty, questionCount)
  {
    var run := RunFor(rows, attempted, knowledge, difficulty);
    var paper := Truncate(run.Chosen(|run.slots|), questionCount);
    var qs := QuestionsFor(paper, totalScore / questionCount);
    SlotsHaveOnlyKeys(knowledge, difficulty, run.slots);
    ChosenAreSlots(run, |run.slots|);
    forall i | 0 <= i < |paper| ensures Topics(qs)[i] in knowledge.keys && Difficulties(qs)[i] in difficulty.keys {
      var j :| 0 <= j < |run.slots| && run.slots[j] == SlotOf(run.Chosen(|run.slots|)[i]);
    }
    if ValidPaper(SpecFor(totalScore, questionCount, knowledge, difficulty), qs) {
      CloseMeansWanted(knowledge, Topics(qs), questionCount);
      CloseMeansWanted(difficulty, Difficulties(qs), questionCount);
    }
  }

  // For any two dictionaries of counts: the paper is valid exactly when the counts are nonnegative and sum to
  // the paper's length, every slot was filled, the score splits evenly and every chosen question has an answer.
  lemma {:induction false} ValidIffWantedAndComplete(rows: seq<Row>, attempted: set<nat>, knowledge: Counts,
      difficulty: Counts,
                                                     questionCount: nat, totalScore: int)
    requires questionCount > 0 && Exacting(questionCount) && knowledge.Valid() && difficulty.Valid() && Consistent(rows)
    requires ZipStrict(KnowledgeSlots(knowledge), BalancedSlots(difficulty)).Some?
    ensures
      var run := RunFor(rows, attempted, knowledge, difficulty);
      var chosen := run.Chosen(|run.slots|);
      ValidPaper(SpecFor(totalScore, questionCount, knowledge, difficulty),
                 QuestionsFor(Truncate(chosen, questionCount), totalScore / questionCount))
      <==> Wanted(knowledge, questionCount) && Wanted(difficulty, questionCount)
           && run.Complete() && Divides(questionCount, totalScore) && AllAnswered(chosen)
  {
    var run := RunFor(rows, attempted, knowledge, difficulty);
    if Wanted(knowledge, questionCount) && Wanted(difficulty, questionCount) {
      RunHasAllSlots(rows, attempted, knowledge, difficulty, questionCount);
      ChosenAndUnfilled(run, |run.slots|);
      SelectorAndValidatorAgree(rows, attempted, knowledge, difficulty, questionCount, totalScore);
    } else {
      ValidNeedsWanted(rows, attempted, knowledge, difficulty, questionCount, totalScore);
    }
  }

  // ---- The assembly as it runs -------------------------------------------------------------

  // `LengthMismatch` is the error of the strict zip, `NothingToAsk` that of taking the first key of an
  // empty dictionary.
  datatype Assembly = Published(paper: seq<Row>) | WaitingForReview(missing: seq<Slot>) | LengthMismatch | NothingToAsk

  // `execute_job` from the counts on, whatever the counts are.  A paper that fails although no slot is
  // missing asks for one question of the first pair.
  ghost predicate AssembledRight(rows: seq<Row>, attempted: set<nat>, knowledge: Counts, difficulty: Counts,
                                 questionCount: nat, totalScore: int, result: Assembly)
    requires questionCount > 0 && knowledge.Valid() && difficulty.Valid()
  {
    var slots := ZipStrict(KnowledgeSlots(knowledge), BalancedSlots(difficulty));
    if slots.None? then result == LengthMismatch
    else
      var run := RunFor(rows, attempted, knowledge, difficulty);
      var paper := Truncate(run.Chosen(|run.slots|), questionCount);
      if ValidPaper(SpecFor(totalScore, questionCount, knowledge, difficulty), QuestionsFor(paper, totalScore / questionCount))
      then result == Published(paper)
      else if exists slot :: Lacking(run.slots, paper, slot) > 0
      then result.WaitingForReview? && forall slot :: Occurs(result.missing, slot) == Lacking(run.slots, paper, slot)
      else result == if knowledge.keys == [] || difficulty.keys == [] then NothingToAsk
                     else WaitingForReview([Slot(knowledge.keys[0], difficulty.keys[0])])
  }

  method Assemble(rows: seq<Row>, attempted: set<nat>, knowledge: Counts, difficulty: Counts, questionCount: nat,
      totalScore: int)
    returns (result: Assembly)
    requires questionCount > 0 && knowledge.Valid() && difficulty.Valid()
    ensures AssembledRight(rows, attempted, knowledge, difficulty, questionCount, totalScore, result)
  {
    var topics := ExpandBlocks(knowledge);
    var difficulties := ExpandBalancedCounts(difficulty);
    var selected := SelectQuestions(rows, attempted, topics, difficulties, questionCount);
    if selected.None? {
      return LengthMismatch;
    }
    var validator := new MockExamValidator();
    var valid := validator.Validate(SpecFor(totalScore, questionCount, knowledge, difficulty),
                                    QuestionsFor(selected.value, totalScore / questionCount));
    if valid {
      return Published(selected.value);
    }
    ghost var slots := ZipStrict(topics, difficulties).value;
    var missing := MissingPairs(ZipStrict(topics, difficulties).value, selected.value);
    NoneMissing(slots, selected.value, missing);
    if missing != [] {
      return WaitingForReview(missing);
    }
    if knowledge.keys == [] || difficulty.keys == [] {
      return NothingToAsk;
    }
    result := WaitingForReview([Slot(knowledge.keys[0], difficulty.keys[0])]);
  }

  lemma {:induction false} NoneMissing(slots: seq<Slot>, selected: seq<Row>, missing: seq<Slot>)
    requires forall slot :: Occurs(missing, slot) == Lacking(slots, selected, slot)
    ensures missing == [] <==> forall slot :: Lacking(slots, selected, slot) == 0
  {
    if missing == [] {
      forall slot ensures Lacking(slots, selected, slot) == 0 { assert Occurs(missing, slot) == 0; }
    } else {
      OccursIffMember(missing, missing[0], |missing|);
      assert Occurs(missing, missing[0]) > 0;
    }
  }

  // For counts as the slots want them: the paper is published exactly when it is complete, splits evenly and
  // is answered; otherwise the request names its unfilled slots, or one pair when none is unfilled.
  lemma {:induction false} WantedAssembly(rows: seq<Row>, attempted: set<nat>, knowledge: Counts, difficulty: Counts,
                                          questionCount: nat, totalScore: int, result: Assembly)
    requires questionCount > 0 && Wanted(knowledge, questionCount) && Wanted(difficulty, questionCount) && Consistent(rows)
    ensures
      var run := RunFor(rows, attempted, knowledge, difficulty);
      var chosen := run.Chosen(|run.slots|);
      AssembledRight(rows, attempted, knowledge, difficulty, questionCount, totalScore, result) ==>
      if run.Complete() && Divides(questionCount, totalScore) && AllAnswered(chosen) then result == Published(chosen)
      else
        && result.WaitingForReview?
        && (!run.Complete() ==> SamePairs(result.missing, run.Unfilled(|run.slots|)))
        && (run.Complete() ==> |knowledge.keys| > 0 && |difficulty.keys| > 0
                               && result.missing == [Slot(knowledge.keys[0], difficulty.keys[0])])
  {
    var run := RunFor(rows, attempted, knowledge, difficulty);
    var chosen := run.Chosen(|run.slots|);
    RunHasAllSlots(rows, attempted, knowledge, difficulty, questionCount);
    ChosenAndUnfilled(run, |run.slots|);
    SelectorAndValidatorAgree(rows, attempted, knowledge, difficulty, questionCount, totalScore);
    LackingIsUnfilled(run);
    KeysExist(knowledge);
    KeysExist(difficulty);
  }

  lemma {:induction false} LackingIsUnfilled(run: Run)
    ensures forall slot :: Lacking(run.slots, run.Chosen(|run.slots|), slot) == Occurs(run.Unfilled(|run.slots|), slot)
    ensures run.Unfilled(|run.slots|) == [] <==> forall slot :: Lacking(run.slots, run.Chosen(|run.slots|), slot) == 0
  {
    var unfilled := run.Unfilled(|run.slots|);
    forall slot ensures Lacking(run.slots, run.Chosen(|run.slots|), slot) == Occurs(unfilled, slot) {
      FilledAndMissing(run, slot, |run.slots|);
    }
    NoneMissing(run.slots, run.Chosen(|run.slots|), unfilled);
  }

  lemma {:induction false} KeysExist(d: Counts)
    requires d.Total() > 0
    ensures |d.keys| > 0
  {
  }
}
