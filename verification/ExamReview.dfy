// app/application/mock_exams.py: what happens when the assembly of a paper runs again after every missing
// pair got one freshly generated and reviewed question.
module ExamReview {
  import opened Wrappers
  import opened OrderedCounts
  import opened ExamSelection

  ghost predicate TopicsContiguous(slots: seq<Slot>) {
    forall i, j, m :: 0 <= i <= j <= m < |slots| && slots[i].topic == slots[m].topic ==> slots[j].topic == slots[i].topic
  }

  // The run that missed pairs, the run after the review, and the questions published in between.
  datatype Review = Review(before: Run, after: Run, published: seq<Row>) {
    // Counts and attempt history are unchanged; the new rows are the old ones and the published ones;
    // each published question has its own new id and one topic.
    ghost predicate Valid() {
      && after.slots == before.slots && after.attempted == before.attempted
      && (forall r :: r in after.rows <==> r in before.rows || r in published)
      && Consistent(after.rows)
      && DistinctIds(published)
      && (forall i :: 0 <= i < |published| ==> published[i].question.id !in before.attempted)
      && (forall r, i :: r in before.rows && 0 <= i < |published| ==> r.question.id != published[i].question.id)
    }

    // One published question for every slot that stayed unfilled.
    ghost predicate OnePerMissing() { SamePairs(SlotsOf(published), before.Unfilled(|before.slots|)) }

    ghost function OldIds(slot: Slot): set<nat> { set r | r in before.rows && Fits(r, slot) :: r.question.id }

    ghost function NewIds(slot: Slot): set<nat> { NewIdsOfFirst(slot, |published|) }

    ghost function NewIdsOfFirst(slot: Slot, k: nat): set<nat>
      requires k <= |published|
    {
      if k == 0 then {}
      else if Fits(published[k - 1], slot) then NewIdsOfFirst(slot, k - 1) + {published[k - 1].question.id}
      else NewIdsOfFirst(slot, k - 1)
    }

    // How often a slot stayed unfilled among the first `i` slots.
    ghost function Missed(slot: Slot, i: nat): nat
      requires i <= |before.slots|
    {
      Occurs(before.Unfilled(i), slot)
    }
  }

  lemma {:induction false} NewIdsAreFitting(v: Review, slot: Slot, k: nat)
    requires k <= |v.published|
    ensures forall id :: id in v.NewIdsOfFirst(slot, k) <==> exists i :: 0 <= i < k && Fits(v.published[i], slot) && v.published[i].question.id == id
  {
    if k > 0 { NewIdsAreFitting(v, slot, k - 1); }
  }

  ghost predicate DistinctIds(rows: seq<Row>) {
    forall i, j :: 0 <= i < j < |rows| ==> rows[i].question.id != rows[j].question.id
  }

  // As many published questions fit a slot as the slot was missed.
  lemma {:induction false} NewIdsCount(v: Review, slot: Slot, k: nat)
    requires DistinctIds(v.published) && k <= |v.published|
    ensures |v.NewIdsOfFirst(slot, k)| == OccursInFirst(SlotsOf(v.published), slot, k)
  {
    if k > 0 {
      NewIdsCount(v, slot, k - 1);
      NewIdsAreFitting(v, slot, k - 1);
      assert v.published[k - 1].question.id !in v.NewIdsOfFirst(slot, k - 1);
    }
  }

  // A row of the second run is an old row, or the one row of a fresh question.
  lemma {:induction false} PublishedRowFits(v: Review, row: Row, slot: Slot)
    requires v.Valid() && row in v.after.rows && row.question.id in v.NewIds(slot)
    ensures Fits(row, slot)
  {
    NewIdsAreFitting(v, slot, |v.published|);
    var i :| 0 <= i < |v.published| && Fits(v.published[i], slot) && v.published[i].question.id == row.question.id;
    if row in v.published {
      var j :| 0 <= j < |v.published| && v.published[j] == row;
    }
  }

  // An old question used by the second run was used by the first run no later.
  lemma {:induction false} OldQuestionsComeFirst(v: Review, k: nat, row: Row)
    requires v.Valid() && k <= |v.before.slots| && row in v.before.rows && row.question.id in v.after.Used(k)
    ensures row.question.id in v.before.Used(k)
    decreases k, 0
  {
    if k > 0 {
      var i := k - 1;
      if row.question.id in v.after.Used(i) {
        OldQuestionsComeFirst(v, i, row);
      } else {
        PickFits(v.after, i);
        var second := v.after.Pick(i).value;
        assert second.question == row.question;
        if row.question.id !in v.before.Used(i) { SamePick(v, i, second); }
      }
    }
  }

  // What the second run picks among the old questions, the first run picked too, unless it had before.
  lemma {:induction false} SamePick(v: Review, i: nat, second: Row)
    requires v.Valid() && i < |v.before.slots| && v.after.Pick(i) == Some(second)
    requires exists r :: r in v.before.rows && r.question == second.question
    requires second.question.id !in v.before.Used(i)
    ensures v.before.Pick(i).Some? && v.before.Pick(i).value.question.id == second.question.id
    decreases i, 1
  {
    PickFits(v.after, i);
    var r :| r in v.before.rows && r.question == second.question;
    assert second in v.before.rows;
    PickIsBest(v.before, i, second);
    PickFits(v.before, i);
    var first := v.before.Pick(i).value;
    if first.question.id in v.after.Used(i) { OldQuestionsComeFirst(v, i, first); }
    PickIsBest(v.after, i, first);
    assert first.question.code == second.question.code;
  }

  // How many of these questions slot `i` may still use.
  ghost function Left(run: Run, ids: set<nat>, i: nat): int
    requires i <= |run.slots|
  {
    if i == 0 then |ids - run.attempted|
    else Left(run, ids, i - 1) - if run.Pick(i - 1).Some? && run.Pick(i - 1).value.question.id in ids then 1 else 0
  }

  lemma {:induction false} LeftIsCount(run: Run, ids: set<nat>, i: nat)
    requires i <= |run.slots|
    ensures Left(run, ids, i) == |ids - run.Used(i)|
  {
    if i > 0 {
      LeftIsCount(run, ids, i - 1);
      if run.Pick(i - 1).Some? {
        PickFits(run, i - 1);
        assert ids - run.Used(i) == ids - run.Used(i - 1) - {run.Pick(i - 1).value.question.id};
      }
    }
  }

  // What is left for a slot: published and old questions of the second run, against what the first run
  // still misses and what old questions it had left.
  ghost predicate Enough(v: Review, slot: Slot, i: nat)
    requires i <= |v.before.slots| && v.after.slots == v.before.slots
  {
    Left(v.after, v.NewIds(slot), i) + Left(v.after, v.OldIds(slot), i)
    >= v.Missed(slot, |v.before.slots|) - v.Missed(slot, i) + Left(v.before, v.OldIds(slot), i)
  }

  lemma {:induction false} MissedStep(v: Review, slot: Slot, i: nat)
    requires i < |v.before.slots|
    ensures v.Missed(slot, i + 1) == v.Missed(slot, i) + if v.before.Pick(i).None? && v.before.slots[i] == slot then 1 else 0
  {
    OccursWithOneMore(v.before.Unfilled(i), v.before.slots[i], slot);
  }

  lemma {:induction false} MissedGrows(v: Review, slot: Slot, i: nat, j: nat)
    requires i <= j <= |v.before.slots|
    ensures v.Missed(slot, i) <= v.Missed(slot, j)
  {
    if i < j {
      MissedGrows(v, slot, i, j - 1);
      MissedStep(v, slot, j - 1);
    }
  }

  // Before the block of a topic begins, its published questions are untouched and nothing was missed.
  lemma {:induction false} BeforeTheBlock(v: Review, slot: Slot, i: nat)
    requires v.Valid() && i <= |v.before.slots| && forall j :: 0 <= j < i ==> v.before.slots[j].topic != slot.topic
    ensures v.NewIds(slot) !! v.after.Used(i) && v.Missed(slot, i) == 0
  {
    NewIdsAreFitting(v, slot, |v.published|);
    if i > 0 {
      BeforeTheBlock(v, slot, i - 1);
      MissedStep(v, slot, i - 1);
      if v.after.Pick(i - 1).Some? {
        PickFits(v.after, i - 1);
        if v.after.Pick(i - 1).value.question.id in v.NewIds(slot) { PublishedRowFits(v, v.after.Pick(i - 1).value, slot); }
      }
    }
  }

  lemma {:induction false} EnoughAtTheStart(v: Review, slot: Slot, i: nat)
    requires v.Valid() && v.OnePerMissing() && i <= |v.before.slots| && forall j :: 0 <= j < i ==> v.before.slots[j].topic != slot.topic
    ensures Enough(v, slot, i)
  {
    BeforeTheBlock(v, slot, i);
    NewIdsCount(v, slot, |v.published|);
    LeftIsCount(v.after, v.NewIds(slot), i);
    assert v.NewIds(slot) - v.after.Used(i) == v.NewIds(slot);
    OldLeftOver(v, slot, i);
  }

  // The second run has at least the old questions left that the first run had left.
  lemma {:induction false} OldLeftOver(v: Review, slot: Slot, i: nat)
    requires v.Valid() && i <= |v.before.slots|
    ensures Left(v.before, v.OldIds(slot), i) <= Left(v.after, v.OldIds(slot), i)
  {
    LeftIsCount(v.before, v.OldIds(slot), i);
    LeftIsCount(v.after, v.OldIds(slot), i);
    forall id | id in v.OldIds(slot) - v.before.Used(i) ensures id !in v.after.Used(i) {
      var r :| r in v.before.rows && Fits(r, slot) && r.question.id == id;
      if id in v.after.Used(i) { OldQuestionsComeFirst(v, i, r); }
    }
    SubsetSize(v.OldIds(slot) - v.before.Used(i), v.OldIds(slot) - v.after.Used(i));
  }

  // A slot of another difficulty takes nothing that fits this slot.
  lemma {:induction false} OtherDifficulty(v: Review, slot: Slot, i: nat)
    requires v.Valid() && i < |v.before.slots| && v.before.slots[i].difficulty != slot.difficulty && Enough(v, slot, i)
    ensures Enough(v, slot, i + 1)
  {
    MissedStep(v, slot, i);
    if v.after.Pick(i).Some? {
      PickFits(v.after, i);
      TakesNothing(v, slot, v.after.Pick(i).value);
    }
    if v.before.Pick(i).Some? {
      PickFits(v.before, i);
      TakesNothing(v, slot, v.before.Pick(i).value);
    }
  }

  lemma {:induction false} TakesNothing(v: Review, slot: Slot, row: Row)
    requires v.Valid() && row in v.after.rows && row.question.difficulty != slot.difficulty
    ensures row.question.id !in v.NewIds(slot) && row.question.id !in v.OldIds(slot)
  {
    if row.question.id in v.NewIds(slot) { PublishedRowFits(v, row, slot); }
  }

  // A pick for the slot itself takes a published or an old question, never both.
  lemma {:induction false} TakesOne(v: Review, slot: Slot, row: Row)
    requires v.Valid() && row in v.after.rows && Fits(row, slot)
    ensures row.question.id in v.NewIds(slot) <==> row.question.id !in v.OldIds(slot)
  {
    NewIdsAreFitting(v, slot, |v.published|);
    if row in v.published {
      var i :| 0 <= i < |v.published| && v.published[i] == row;
    }
  }

  lemma {:induction false} SameSlot(v: Review, slot: Slot, i: nat)
    requires v.Valid() && i < |v.before.slots| && v.before.slots[i] == slot && Enough(v, slot, i)
    ensures Enough(v, slot, i + 1)
  {
    MissedStep(v, slot, i);
    MissedGrows(v, slot, i + 1, |v.before.slots|);
    if v.after.Pick(i).Some? {
      PickFits(v.after, i);
      TakesOne(v, slot, v.after.Pick(i).value);
    }
    if v.before.Pick(i).Some? {
      PickFits(v.before, i);
      assert v.before.Pick(i).value.question.id in v.OldIds(slot);
    }
  }

  // Inside the block of its topic a slot never runs short.
  lemma {:induction false} EnoughInTheBlock(v: Review, slot: Slot, start: nat, i: nat)
    requires v.Valid() && start <= i <= |v.before.slots| && Enough(v, slot, start)
    requires forall j :: start <= j < i ==> v.before.slots[j].topic == slot.topic
    ensures Enough(v, slot, i)
    decreases i - start
  {
    if start < i {
      EnoughAfterOne(v, slot, start);
      EnoughInTheBlock(v, slot, start + 1, i);
    }
  }

  lemma {:induction false} EnoughAfterOne(v: Review, slot: Slot, i: nat)
    requires v.Valid() && i < |v.before.slots| && v.before.slots[i].topic == slot.topic && Enough(v, slot, i)
    ensures Enough(v, slot, i + 1)
  {
    if v.before.slots[i].difficulty == slot.difficulty {
      SameSlot(v, slot, i);
    } else {
      OtherDifficulty(v, slot, i);
    }
  }

  lemma {:induction false} StartOfBlock(slots: seq<Slot>, i: nat) returns (start: nat)
    requires TopicsContiguous(slots) && i < |slots|
    ensures start <= i
    ensures forall j :: 0 <= j < start ==> slots[j].topic != slots[i].topic
    ensures forall j :: start <= j <= i ==> slots[j].topic == slots[i].topic
  {
    start := i;
    while start > 0 && slots[start - 1].topic == slots[i].topic
      invariant start <= i && forall j :: start <= j <= i ==> slots[j].topic == slots[i].topic
    {
      start := start - 1;
    }
  }

  // The second run fills every slot, although it may choose differently and although old questions may
  // belong to several topics.
  lemma {:induction false} ReviewCompletesThePaper(v: Review)
    requires v.Valid() && v.OnePerMissing() && TopicsContiguous(v.before.slots)
    ensures v.after.Complete()
  {
    forall i | 0 <= i < |v.after.slots| ensures v.after.Pick(i).Some? {
      var start := StartOfBlock(v.before.slots, i);
      SlotIsFilled(v, start, i);
    }
  }

  lemma {:induction false} SlotIsFilled(v: Review, start: nat, i: nat)
    requires v.Valid() && v.OnePerMissing() && start <= i < |v.before.slots|
    requires forall j :: 0 <= j < start ==> v.before.slots[j].topic != v.before.slots[i].topic
    requires forall j :: start <= j < i ==> v.before.slots[j].topic == v.before.slots[i].topic
    ensures v.after.Pick(i).Some?
  {
    var slot := v.before.slots[i];
    if v.before.Pick(i).Some? {
      FilledAgain(v, i);
    } else {
      EnoughAtTheStart(v, slot, start);
      EnoughInTheBlock(v, slot, start, i);
      MissedStep(v, slot, i);
      MissedGrows(v, slot, i + 1, |v.before.slots|);
      SomethingIsLeft(v, slot, i);
    }
  }

  lemma {:induction false} FilledAgain(v: Review, i: nat)
    requires v.Valid() && i < |v.before.slots| && v.before.Pick(i).Some?
    ensures v.after.Pick(i).Some?
  {
    PickFits(v.before, i);
    var first := v.before.Pick(i).value;
    if first.question.id in v.after.Used(i) { OldQuestionsComeFirst(v, i, first); }
    PickIsBest(v.after, i, first);
  }

  lemma {:induction false} SomethingIsLeft(v: Review, slot: Slot, i: nat)
    requires v.Valid() && i < |v.before.slots| && v.before.slots[i] == slot && Enough(v, slot, i)
    requires v.Missed(slot, |v.before.slots|) > v.Missed(slot, i)
    ensures v.after.Pick(i).Some?
  {
    LeftIsCount(v.after, v.NewIds(slot), i);
    LeftIsCount(v.after, v.OldIds(slot), i);
    LeftIsCount(v.before, v.OldIds(slot), i);
    var published, old0 := v.NewIds(slot) - v.after.Used(i), v.OldIds(slot) - v.after.Used(i);
    assert |published| + |old0| > 0;
    if published != {} {
      var id :| id in published;
      PublishedIsLeft(v, slot, i, id);
    } else {
      var id :| id in old0;
      OldIsLeft(v, slot, i, id);
    }
  }

  lemma {:induction false} PublishedIsLeft(v: Review, slot: Slot, i: nat, id: nat)
    requires v.Valid() && i < |v.before.slots| && v.before.slots[i] == slot
    requires id in v.NewIds(slot) && id !in v.after.Used(i)
    ensures v.after.Pick(i).Some?
  {
    NewIdsAreFitting(v, slot, |v.published|);
    var k :| 0 <= k < |v.published| && Fits(v.published[k], slot) && v.published[k].question.id == id;
    PickIsBest(v.after, i, v.published[k]);
  }

  lemma {:induction false} OldIsLeft(v: Review, slot: Slot, i: nat, id: nat)
    requires v.Valid() && i < |v.before.slots| && v.before.slots[i] == slot
    requires id in v.OldIds(slot) && id !in v.after.Used(i)
    ensures v.after.Pick(i).Some?
  {
    var r :| r in v.before.rows && Fits(r, slot) && r.question.id == id;
    PickIsBest(v.after, i, r);
  }
}
