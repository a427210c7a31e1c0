// app/application/mock_exams.py: the greedy choice of questions for the slots of a paper, and the pairs
// that stay missing.
module ExamSelection {
  import opened Wrappers
  import opened OrderedCounts

  // `code` is the place of the question's code in the order of all codes; codes are unique.
  datatype Question = Question(id: nat, code: int, generated: bool, difficulty: Label, answered: bool, valid: bool)

  // A question joined with one of its knowledge nodes.
  datatype Row = Row(question: Question, topic: Label)

  datatype Slot = Slot(topic: Label, difficulty: Label)

  predicate Fits(row: Row, slot: Slot) { row.topic == slot.topic && row.question.difficulty == slot.difficulty }

  // The sort key of `_best_candidate`: real questions first, then by code.
  predicate Better(a: Question, b: Question) {
    (!a.generated && b.generated) || (a.generated == b.generated && a.code < b.code)
  }

  // `_best_candidate` among the first `k` rows.
  function BestOfFirst(rows: seq<Row>, slot: Slot, excluded: set<nat>, k: nat): Option<Row>
    requires k <= |rows|
  {
    if k == 0 then None
    else
      var best := BestOfFirst(rows, slot, excluded, k - 1);
      var row := rows[k - 1];
      if Fits(row, slot) && row.question.id !in excluded && (best.None? || Better(row.question, best.value.question)) then Some(row)
      else best
  }

  // It finds a candidate exactly when there is one; a generated question only when there is no real one, and
  // among questions of its kind the one whose code comes first.
  lemma {:induction false} BestIsBest(rows: seq<Row>, slot: Slot, excluded: set<nat>, k: nat)
    requires k <= |rows|
    ensures
      var best := BestOfFirst(rows, slot, excluded, k);
      && (best.None? ==> forall i :: 0 <= i < k && Fits(rows[i], slot) ==> rows[i].question.id in excluded)
      && (best.Some? ==>
            && best.value in rows[..k] && Fits(best.value, slot) && best.value.question.id !in excluded
            && forall i :: 0 <= i < k && Fits(rows[i], slot) && rows[i].question.id !in excluded
                 ==> && (best.value.question.generated ==> rows[i].question.generated)
                     && (best.value.question.generated == rows[i].question.generated ==> best.value.question.code <= rows[i].question.code))
  {
    if k > 0 {
      BestIsBest(rows, slot, excluded, k - 1);
      assert rows[..k] == rows[..k - 1] + [rows[k - 1]];
    }
  }

  function Best(rows: seq<Row>, slot: Slot, excluded: set<nat>): Option<Row> { BestOfFirst(rows, slot, excluded,
      |rows|) }

  // What the database guarantees of the joined rows: an id and a code belong to one question, and every
  // question was selected as valid.
  ghost predicate Consistent(rows: seq<Row>) {
    && (forall r, s :: r in rows && s in rows && r.question.id == s.question.id ==> r.question == s.question)
    && (forall r, s :: r in rows && s in rows && r.question.code == s.question.code ==> r.question == s.question)
    && (forall r :: r in rows ==> r.question.valid)
  }

  // One pass over the slots.
  datatype Run = Run(rows: seq<Row>, attempted: set<nat>, slots: seq<Slot>) {
    // Ids that slot `k` may not use: attempted questions and those chosen for earlier slots.
    function Used(k: nat): set<nat>
      requires k <= |slots|
      decreases k, 0
    {
      if k == 0 then attempted
      else if Pick(k - 1).Some? then Used(k - 1) + {Pick(k - 1).value.question.id}
      else Used(k - 1)
    }

    function Pick(k: nat): Option<Row>
      requires k < |slots|
      decreases k, 1
    {
      Best(rows, slots[k], Used(k))
    }

    function Chosen(k: nat): seq<Row>
      requires k <= |slots|
    {
      if k == 0 then [] else if Pick(k - 1).Some? then Chosen(k - 1) + [Pick(k - 1).value] else Chosen(k - 1)
    }

    function Unfilled(k: nat): seq<Slot>
      requires k <= |slots|
    {
      if k == 0 then [] else if Pick(k - 1).Some? then Unfilled(k - 1) else Unfilled(k - 1) + [slots[k - 1]]
    }

    predicate CompleteUpTo(k: nat)
      requires k <= |slots|
    {
      forall i :: 0 <= i < k ==> Pick(i).Some?
    }

    predicate Complete() { CompleteUpTo(|slots|) }
  }

  function SlotOf(row: Row): Slot { Slot(row.topic, row.question.difficulty) }

  function SlotsOf(rows: seq<Row>): seq<Slot> { seq(|rows|, i requires 0 <= i < |rows| => SlotOf(rows[i])) }

  // Every slot is either filled by a fitting question or missing: the counters add up.
  lemma {:induction false} FilledAndMissing(run: Run, slot: Slot, k: nat)
    requires k <= |run.slots|
    ensures OccursInFirst(run.slots, slot, k) == Occurs(SlotsOf(run.Chosen(k)), slot) + Occurs(run.Unfilled(k), slot)
  {
    if k > 0 {
      FilledAndMissing(run, slot, k - 1);
      var last := run.slots[k - 1];
      if run.Pick(k - 1).Some? {
        PickFits(run, k - 1);
        assert SlotsOf(run.Chosen(k)) == SlotsOf(run.Chosen(k - 1)) + [last];
        OccursWithOneMore(SlotsOf(run.Chosen(k - 1)), last, slot);
      } else {
        OccursWithOneMore(run.Unfilled(k - 1), last, slot);
      }
    }
  }

  lemma {:induction false} ChosenAndUnfilled(run: Run, k: nat)
    requires k <= |run.slots|
    ensures |run.Chosen(k)| + |run.Unfilled(k)| == k
    ensures run.Unfilled(k) == [] <==> run.CompleteUpTo(k)
  {
    if k > 0 {
      ChosenAndUnfilled(run, k - 1);
      assert run.CompleteUpTo(k) <==> run.CompleteUpTo(k - 1) && run.Pick(k - 1).Some?;
    }
  }

  // No question is chosen twice, and none that the student has attempted.
  lemma {:induction false} ChosenAreFresh(run: Run, k: nat)
    requires k <= |run.slots|
    ensures forall i :: 0 <= i < |run.Chosen(k)| ==>
              run.Chosen(k)[i] in run.rows && run.Chosen(k)[i].question.id in run.Used(k) && run.Chosen(k)[i].question.id !in run.attempted
    ensures forall i, j :: 0 <= i < j < |run.Chosen(k)| ==> run.Chosen(k)[i].question.id != run.Chosen(k)[j].question.id
    ensures run.attempted <= run.Used(k)
  {
    if k > 0 {
      ChosenAreFresh(run, k - 1);
      if run.Pick(k - 1).Some? { PickFits(run, k - 1); }
    }
  }

  lemma {:induction false} PickFits(run: Run, k: nat)
    requires k < |run.slots| && run.Pick(k).Some?
    ensures run.Pick(k).value in run.rows && Fits(run.Pick(k).value, run.slots[k]) && run.Pick(k).value.question.id !in run.Used(k)
  {
    BestIsBest(run.rows, run.slots[k], run.Used(k), |run.rows|);
    assert run.rows[..|run.rows|] == run.rows;
  }

  lemma {:induction false} PickIsBest(run: Run, k: nat, row: Row)
    requires k < |run.slots| && row in run.rows && Fits(row, run.slots[k]) && row.question.id !in run.Used(k)
    ensures run.Pick(k).Some? && !Better(row.question, run.Pick(k).value.question)
  {
    BestIsBest(run.rows, run.slots[k], run.Used(k), |run.rows|);
    var i :| 0 <= i < |run.rows| && run.rows[i] == row;
  }

  predicate AmongChosen(chosen: seq<Row>, id: nat) { exists i :: 0 <= i < |chosen| && chosen[i].question.id == id }

  lemma {:induction false} ChosenOneMore(chosen: seq<Row>, last: Row, id: nat)
    ensures AmongChosen(chosen + [last], id) <==> AmongChosen(chosen, id) || last.question.id == id
  {
    var more := chosen + [last];
    assert forall i :: 0 <= i < |chosen| ==> more[i] == chosen[i];
    assert more[|chosen|] == last;
  }

  // What slot `k` may not use: what the student has attempted, and what earlier slots have chosen.
  lemma {:induction false} UsedIsChosen(run: Run, k: nat, id: nat)
    requires k <= |run.slots|
    ensures id in run.Used(k) <==> id in run.attempted || AmongChosen(run.Chosen(k), id)
  {
    if k > 0 {
      UsedIsChosen(run, k - 1, id);
      if run.Pick(k - 1).Some? { ChosenOneMore(run.Chosen(k - 1), run.Pick(k - 1).value, id); }
    }
  }

  // A slot is filled exactly if some fitting question is neither attempted nor chosen for an earlier slot.
  lemma {:induction false} FilledIffAvailable(run: Run, k: nat)
    requires k < |run.slots|
    ensures run.Pick(k).Some? <==>
              exists row :: row in run.rows && row.topic == run.slots[k].topic && row.question.difficulty == run.slots[k].difficulty
                && row.question.id !in run.attempted && !AmongChosen(run.Chosen(k), row.question.id)
  {
    if run.Pick(k).Some? {
      PickFits(run, k);
      UsedIsChosen(run, k, run.Pick(k).value.question.id);
    } else if row :| row in run.rows && Fits(row, run.slots[k]) && row.question.id !in run.attempted
                     && !AmongChosen(run.Chosen(k), row.question.id) {
      UsedIsChosen(run, k, row.question.id);
      PickIsBest(run, k, row);
    }
  }

  // ---- As the source runs it ---------------------------------------------------------------

  method BestCandidate(rows: seq<Row>, slot: Slot, excluded: set<nat>) returns (best: Option<Row>)
    ensures best == Best(rows, slot, excluded)
  {
    best := None;
    for k := 0 to |rows|
      invariant best == BestOfFirst(rows, slot, excluded, k)
    {
      if Fits(rows[k], slot) && rows[k].question.id !in excluded && (best.None? || Better(rows[k].question, best.value.question)) {
        best := Some(rows[k]);
      }
    }
  }

  // `zip(..., strict=True)`: lists of different lengths raise an error.
  function ZipStrict(topics: seq<Label>, difficulties: seq<Label>): Option<seq<Slot>> {
    if |topics| != |difficulties| then None
    else Some(seq(|topics|, i requires 0 <= i < |topics| => Slot(topics[i], difficulties[i])))
  }

  // `_select_questions` from the rows on.
  method SelectQuestions(rows: seq<Row>, attempted: set<nat>, topics: seq<Label>, difficulties: seq<Label>,
      questionCount: nat)
    returns (selected: Option<seq<Row>>)
    ensures
      var slots := ZipStrict(topics, difficulties);
      selected == if slots.None? then None
                  else
                    var chosen := Run(rows, attempted, slots.value).Chosen(|slots.value|);
                    Some(if |chosen| <= questionCount then chosen else chosen[..questionCount])
  {
    var slots := ZipStrict(topics, difficulties);
    if slots.None? {
      return None;
    }
    ghost var run := Run(rows, attempted, slots.value);
    var chosen: seq<Row> := [];
    var used: set<nat> := {};
    for k := 0 to |slots.value|
      invariant chosen == run.Chosen(k) && attempted + used == run.Used(k)
    {
      var candidate := BestCandidate(rows, slots.value[k], attempted + used);
      assert candidate == run.Pick(k);
      if candidate.Some? {
        chosen := chosen + [candidate.value];
        used := used + {candidate.value.question.id};
        assert attempted + used == run.Used(k) + {candidate.value.question.id};
      }
    }
    return Some(if |chosen| <= questionCount then chosen else chosen[..questionCount]);
  }

  // How often the difference of two counters holds a pair.
  function Lacking(slots: seq<Slot>, selected: seq<Row>, slot: Slot): nat {
    var expected, actual := Occurs(slots, slot), Occurs(SlotsOf(selected), slot);
    if expected > actual then expected - actual else 0
  }

  // `_missing_pairs`: the difference of two counters, each pair as often as it is missing.
  method MissingPairs(slots: seq<Slot>, selected: seq<Row>) returns (missing: seq<Slot>)
    ensures forall slot :: Occurs(missing, slot) == Lacking(slots, selected, slot)
  {
    missing := [];
    for i := 0 to |slots|
      invariant forall slot :: Occurs(missing, slot) == if slot in slots[..i] then Lacking(slots, selected, slot) else 0
    {
      var pair := slots[i];
      ghost var before := missing;
      assert slots[..i + 1] == slots[..i] + [pair];
      if pair !in slots[..i] {
        var more := Repeat(pair, Lacking(slots, selected, pair));
        missing := missing + more;
        forall slot ensures Occurs(missing, slot) == Occurs(before, slot) + if slot == pair then Lacking(slots, selected, pair) else 0 {
          OccursInBoth(before, more, slot);
          RepeatOccurs(pair, Lacking(slots, selected, pair), slot);
        }
      }
    }
    assert slots[..|slots|] == slots;
    forall slot ensures slot !in slots ==> Lacking(slots, selected, slot) == 0 {
      OccursIffMember(slots, slot, |slots|);
    }
  }

  // The same pairs, each equally often.
  ghost predicate SamePairs(a: seq<Slot>, b: seq<Slot>) { forall slot :: Occurs(a, slot) == Occurs(b, slot) }

  // The missing pairs of a selection are exactly its unfilled slots.
  lemma {:induction false} MissingAreUnfilled(run: Run, selected: seq<Row>, missing: seq<Slot>)
    requires selected == run.Chosen(|run.slots|)
    requires forall slot :: Occurs(missing, slot) == Lacking(run.slots, selected, slot)
    ensures SamePairs(missing, run.Unfilled(|run.slots|))
    ensures missing == [] <==> run.Unfilled(|run.slots|) == []
  {
    forall slot ensures Occurs(missing, slot) == Occurs(run.Unfilled(|run.slots|), slot) {
      FilledAndMissing(run, slot, |run.slots|);
    }
    SameEmptiness(missing, run.Unfilled(|run.slots|));
    SameEmptiness(run.Unfilled(|run.slots|), missing);
  }

  lemma {:induction false} SameEmptiness(a: seq<Slot>, b: seq<Slot>)
    requires SamePairs(a, b)
    ensures a == [] ==> b == []
  {
    if b != [] {
      OccursIffMember(b, b[0], |b|);
      assert Occurs(b, b[0]) > 0;
      assert Occurs(a, b[0]) > 0;
    }
  }
}
