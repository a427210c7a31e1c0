// app/domain/exams/validator.py, and how app/application/mock_exams.py feeds it.  Ratios are exact.
module ExamValidation {
  import opened Wrappers
  import opened OrderedCounts
  import opened ExamSlots
  import opened ExamSelection
  import opened Rounding

  datatype ExamSpec = ExamSpec(
    totalScore: int,
    questionCount: nat,
    difficultyKeys: seq<Label>,
    difficultyRatio: map<Label, real>,
    knowledgeKeys: seq<Label>,
    knowledgeRatio: map<Label, real>,
    tolerance: real)

  datatype ExamQuestion = ExamQuestion(id: nat, score: int, difficulty: Label, topic: Label, hasAnswer: bool, isValid: bool)

  datatype Mismatch =
    | QUESTION_COUNT_MISMATCH | DUPLICATE_QUESTION | TOTAL_SCORE_MISMATCH | ANSWER_MISSING | INVALID_QUESTION
    | DIFFICULTY_DISTRIBUTION_MISMATCH | KNOWLEDGE_DISTRIBUTION_MISMATCH

  function Difficulties(qs: seq<ExamQuestion>): seq<Label> { seq(|qs|, i requires 0 <= i < |qs| => qs[i].difficulty) }

  function Topics(qs: seq<ExamQuestion>): seq<Label> { seq(|qs|, i requires 0 <= i < |qs| => qs[i].topic) }

  function ScoreOfFirst(qs: seq<ExamQuestion>, k: nat): int
    requires k <= |qs|
  {
    if k == 0 then 0 else ScoreOfFirst(qs, k - 1) + qs[k - 1].score
  }

  predicate Distinct(qs: seq<ExamQuestion>) { forall i, j :: 0 <= i < j < |qs| ==> qs[i].id != qs[j].id }

  predicate CloseAt(values: seq<Label>, ratio: map<Label, real>, key: Label, tolerance: real)
    requires values != [] && key in ratio
  {
    Abs(Occurs(values, key) as real / |values| as real - ratio[key]) <= tolerance
  }

  predicate Close(values: seq<Label>, keys: seq<Label>, ratio: map<Label, real>, tolerance: real)
    requires values != [] && forall i :: 0 <= i < |keys| ==> keys[i] in ratio
  {
    forall i :: 0 <= i < |keys| ==> CloseAt(values, ratio, keys[i], tolerance)
  }

  predicate WellFormed(spec: ExamSpec) {
    && (forall i :: 0 <= i < |spec.difficultyKeys| ==> spec.difficultyKeys[i] in spec.difficultyRatio)
    && (forall i :: 0 <= i < |spec.knowledgeKeys| ==> spec.knowledgeKeys[i] in spec.knowledgeRatio)
  }

  // What a valid paper is.
  predicate ValidPaper(spec: ExamSpec, qs: seq<ExamQuestion>)
    requires WellFormed(spec)
  {
    && |qs| == spec.questionCount && Distinct(qs) && ScoreOfFirst(qs, |qs|) == spec.totalScore
    && (forall i :: 0 <= i < |qs| ==> qs[i].hasAnswer && qs[i].isValid)
    && (qs != [] ==>
          && Close(Difficulties(qs), spec.difficultyKeys, spec.difficultyRatio, spec.tolerance)
          && Close(Topics(qs), spec.knowledgeKeys, spec.knowledgeRatio, spec.tolerance))
  }

  function Complain(fails: bool, error: Mismatch): seq<Mismatch> { if fails then [error] else [] }

  predicate AnswerMissing(qs: seq<ExamQuestion>) { exists i :: 0 <= i < |qs| && !qs[i].hasAnswer }

  predicate HasInvalid(qs: seq<ExamQuestion>) { exists i :: 0 <= i < |qs| && !qs[i].isValid }

  // The complaints, in the order in which the validator makes its checks.
  function PaperComplaints(spec: ExamSpec, qs: seq<ExamQuestion>): seq<Mismatch> {
    Complain(|qs| != spec.questionCount, QUESTION_COUNT_MISMATCH)
    + Complain(!Distinct(qs), DUPLICATE_QUESTION)
    + Complain(ScoreOfFirst(qs, |qs|) != spec.totalScore, TOTAL_SCORE_MISMATCH)
    + Complain(AnswerMissing(qs), ANSWER_MISSING)
    + Complain(HasInvalid(qs), INVALID_QUESTION)
  }

  function DistributionComplaints(spec: ExamSpec, qs: seq<ExamQuestion>): seq<Mismatch>
    requires WellFormed(spec)
  {
    Complain(qs != [] && !Close(Difficulties(qs), spec.difficultyKeys, spec.difficultyRatio, spec.tolerance), DIFFICULTY_DISTRIBUTION_MISMATCH)
    + Complain(qs != [] && !Close(Topics(qs), spec.knowledgeKeys, spec.knowledgeRatio, spec.tolerance), KNOWLEDGE_DISTRIBUTION_MISMATCH)
  }

  function Complaints(spec: ExamSpec, qs: seq<ExamQuestion>): seq<Mismatch>
    requires WellFormed(spec)
  {
    PaperComplaints(spec, qs) + DistributionComplaints(spec, qs)
  }

  lemma {:induction false} NoComplaintMeansValid(spec: ExamSpec, qs: seq<ExamQuestion>)
    requires WellFormed(spec)
    ensures Complaints(spec, qs) == [] <==> ValidPaper(spec, qs)
  {
  }

  class MockExamValidator {
    var errors: seq<Mismatch>

    constructor ()
      ensures errors == []
    {
      errors := [];
    }

    // `_validate_distribution`: the first key that is off adds the error and ends the check.
    method ValidateDistribution(values: seq<Label>, keys: seq<Label>, ratio: map<Label, real>, tolerance: real,
        code: Mismatch)
      requires values != [] && forall i :: 0 <= i < |keys| ==> keys[i] in ratio
      modifies this
      ensures errors == old(errors) + if Close(values, keys, ratio, tolerance) then [] else [code]
    {
      for i := 0 to |keys|
        invariant forall j :: 0 <= j < i ==> CloseAt(values, ratio, keys[j], tolerance)
        invariant errors == old(errors)
      {
        if !CloseAt(values, ratio, keys[i], tolerance) {
          errors := errors + [code];
          return;
        }
      }
    }

    // `validate`: one complaint for every requirement that fails, and no other.
    method Validate(spec: ExamSpec, qs: seq<ExamQuestion>) returns (valid: bool)
      requires WellFormed(spec)
      modifies this
      ensures errors == Complaints(spec, qs)
      ensures valid == ValidPaper(spec, qs)
    {
      ValidatePaper(spec, qs);
      ValidateDistributions(spec, qs);
      valid := errors == [];
      NoComplaintMeansValid(spec, qs);
    }

    method ValidatePaper(spec: ExamSpec, qs: seq<ExamQuestion>)
      modifies this
      ensures errors == PaperComplaints(spec, qs)
    {
      errors := [];
      if |qs| != spec.questionCount {
        errors := errors + [QUESTION_COUNT_MISMATCH];
      }
      var distinct := AllDistinct(qs);
      if !distinct {
        errors := errors + [DUPLICATE_QUESTION];
      }
      var score := TotalScore(qs);
      if score != spec.totalScore {
        errors := errors + [TOTAL_SCORE_MISMATCH];
      }
      ValidateContents(qs);
    }

    method ValidateContents(qs: seq<ExamQuestion>)
      modifies this
      ensures errors == old(errors) + Complain(AnswerMissing(qs), ANSWER_MISSING) + Complain(HasInvalid(qs), INVALID_QUESTION)
    {
      if AnswerMissing(qs) {
        errors := errors + [ANSWER_MISSING];
      }
      if HasInvalid(qs) {
        errors := errors + [INVALID_QUESTION];
      }
    }

    method ValidateDistributions(spec: ExamSpec, qs: seq<ExamQuestion>)
      requires WellFormed(spec)
      modifies this
      ensures errors == old(errors) + DistributionComplaints(spec, qs)
    {
      if qs != [] {
        ValidateDistribution(Difficulties(qs), spec.difficultyKeys, spec.difficultyRatio, spec.tolerance, DIFFICULTY_DISTRIBUTION_MISMATCH);
        ValidateDistribution(Topics(qs), spec.knowledgeKeys, spec.knowledgeRatio, spec.tolerance, KNOWLEDGE_DISTRIBUTION_MISMATCH);
      }
    }

    static method TotalScore(qs: seq<ExamQuestion>) returns (score: int)
      ensures score == ScoreOfFirst(qs, |qs|)
    {
      score := 0;
      for k := 0 to |qs|
        invariant score == ScoreOfFirst(qs, k)
      {
        score := score + qs[k].score;
      }
    }

    // `len(ids) == len(set(ids))`.
    static method AllDistinct(qs: seq<ExamQuestion>) returns (distinct: bool)
      ensures distinct == Distinct(qs)
    {
      var ids: set<nat> := {};
      distinct := true;
      for k := 0 to |qs|
        invariant forall i :: 0 <= i < k ==> qs[i].id in ids
        invariant forall id :: id in ids ==> exists i :: 0 <= i < k && qs[i].id == id
        invariant distinct <==> forall i, j :: 0 <= i < j < k ==> qs[i].id != qs[j].id
      {
        if qs[k].id in ids {
          distinct := false;
        }
        ids := ids + {qs[k].id};
      }
    }
  }
}
