// app/application/mock_exams.py: the slots of a paper.  Knowledge slots come topic by topic; difficulty
// slots go round and round the difficulties (`_expand_balanced_counts`).
module ExamSlots {
  import opened OrderedCounts

  // `[key for key, count in d.items() for _ in range(count)]` over the first `k` keys.
  function BlocksOfFirst(d: Counts, k: nat): seq<Label>
    requires k <= |d.keys|
  {
    if k == 0 then [] else BlocksOfFirst(d, k - 1) + Repeat(d.keys[k - 1], d.Get(d.keys[k - 1]))
  }

  function KnowledgeSlots(d: Counts): seq<Label> { BlocksOfFirst(d, |d.keys|) }

  lemma {:induction false} BlocksLength(d: Counts, k: nat)
    requires k <= |d.keys| && d.NonNegative()
    ensures |BlocksOfFirst(d, k)| == d.TotalOfFirst(k)
  {
    if k > 0 { BlocksLength(d, k - 1); }
  }

  // Equal slots lie next to each other.
  predicate Contiguous(slots: seq<Label>) {
    forall i, j, m :: 0 <= i <= j <= m < |slots| && slots[i] == slots[m] ==> slots[j] == slots[i]
  }

  lemma {:induction false} BlocksAreContiguous(d: Counts, k: nat)
    requires d.Valid() && k <= |d.keys|
    ensures Contiguous(BlocksOfFirst(d, k))
    ensures forall i :: 0 <= i < |BlocksOfFirst(d, k)| ==> exists j :: 0 <= j < k && BlocksOfFirst(d, k)[i] == d.keys[j]
  {
    if k > 0 {
      BlocksAreContiguous(d, k - 1);
      var earlier, last := BlocksOfFirst(d, k - 1), d.keys[k - 1];
      assert forall i :: 0 <= i < |earlier| ==> earlier[i] != last;
      var all := BlocksOfFirst(d, k);
      forall i | 0 <= i < |all| ensures exists j :: 0 <= j < k && all[i] == d.keys[j] {
        if i < |earlier| {
          var j :| 0 <= j < k - 1 && earlier[i] == d.keys[j];
        } else {
          assert all[i] == d.keys[k - 1];
        }
      }
    }
  }

  // The blocks come in the order of the keys.
  lemma {:induction false} BlocksFollowTheKeys(d: Counts, k: nat, i: nat, j: nat, a: nat, b: nat)
    requires d.Valid() && k <= |d.keys| && i <= j < |BlocksOfFirst(d, k)| && a < |d.keys| && b < |d.keys|
    requires BlocksOfFirst(d, k)[i] == d.keys[a] && BlocksOfFirst(d, k)[j] == d.keys[b]
    ensures a <= b < k
  {
    var earlier := BlocksOfFirst(d, k - 1);
    if j < |earlier| {
      BlocksFollowTheKeys(d, k - 1, i, j, a, b);
    } else if i < |earlier| {
      BlocksFollowTheKeys(d, k - 1, i, i, a, a);
    }
  }

  // ---- Round robin -------------------------------------------------------------------------

  // Round number `t` gives one slot to each of the first `j` keys that is still owed one.
  function Round(d: Counts, t: nat, j: nat): seq<Label>
    requires j <= |d.keys|
  {
    if j == 0 then []
    else if d.Get(d.keys[j - 1]) > t then Round(d, t, j - 1) + [d.keys[j - 1]]
    else Round(d, t, j - 1)
  }

  function Rounds(d: Counts, t: nat): seq<Label> {
    if t == 0 then [] else Rounds(d, t - 1) + Round(d, t - 1, |d.keys|)
  }

  function MostOfFirst(d: Counts, k: nat): (most: nat)
    requires k <= |d.keys|
    ensures forall i :: 0 <= i < k ==> d.Get(d.keys[i]) <= most
  {
    if k == 0 then 0
    else if d.Get(d.keys[k - 1]) > MostOfFirst(d, k - 1) then d.Get(d.keys[k - 1])
    else MostOfFirst(d, k - 1)
  }

  function BalancedSlots(d: Counts): seq<Label> { Rounds(d, MostOfFirst(d, |d.keys|)) }

  lemma {:induction false} RoundServesOnce(d: Counts, t: nat, j: nat, i: nat)
    requires d.Valid() && j <= |d.keys| && i < |d.keys|
    ensures Occurs(Round(d, t, j), d.keys[i]) == if i < j && d.Get(d.keys[i]) > t then 1 else 0
  {
    if j > 0 {
      RoundServesOnce(d, t, j - 1, i);
      OccursWithOneMore(Round(d, t, j - 1), d.keys[j - 1], d.keys[i]);
    }
  }

  lemma {:induction false} RoundsServeEvenly(d: Counts, t: nat, i: nat)
    requires d.Valid() && i < |d.keys|
    ensures Occurs(Rounds(d, t), d.keys[i]) == if d.Get(d.keys[i]) <= 0 then 0 else if d.Get(d.keys[i]) < t then d.Get(d.keys[i]) else t
  {
    if t > 0 {
      RoundsServeEvenly(d, t - 1, i);
      RoundServesOnce(d, t - 1, |d.keys|, i);
      OccursInBoth(Rounds(d, t - 1), Round(d, t - 1, |d.keys|), d.keys[i]);
    }
  }

  // Every key gets exactly its count.
  lemma {:induction false} SlotsAreExact(d: Counts, i: nat)
    requires d.Valid() && i < |d.keys|
    ensures Occurs(BalancedSlots(d), d.keys[i]) == if d.Get(d.keys[i]) > 0 then d.Get(d.keys[i]) else 0
  {
    RoundsServeEvenly(d, MostOfFirst(d, |d.keys|), i);
  }

  lemma {:induction false} PrefixOfRound(d: Counts, t: nat, j: nat, m: nat) returns (k: nat)
    requires j <= |d.keys| && m <= |Round(d, t, j)|
    ensures k <= j && Round(d, t, k) == Round(d, t, j)[..m]
  {
    if m == |Round(d, t, j)| {
      k := j;
    } else {
      k := PrefixOfRound(d, t, j - 1, m);
      assert Round(d, t, j)[..m] == Round(d, t, j - 1)[..m];
    }
  }

  // A prefix is some full rounds and part of one more.
  lemma {:induction false} PrefixOfRounds(d: Counts, t: nat, m: nat) returns (full: nat, k: nat)
    requires m <= |Rounds(d, t)|
    ensures k <= |d.keys| && Rounds(d, t)[..m] == Rounds(d, full) + Round(d, full, k)
  {
    if t == 0 {
      full, k := 0, 0;
    } else {
      var before := Rounds(d, t - 1);
      if m < |before| {
        full, k := PrefixOfRounds(d, t - 1, m);
        assert Rounds(d, t)[..m] == before[..m];
      } else {
        full := t - 1;
        k := PrefixOfRound(d, t - 1, |d.keys|, m - |before|);
        assert Rounds(d, t)[..m] == before + Round(d, t - 1, |d.keys|)[..m - |before|];
      }
    }
  }

  // However far the slots have been dealt, no key is more than one ahead of a key still owed a slot, and none
  // at all ahead of an earlier one.
  lemma {:induction false} PrefixesAreBalanced(d: Counts, m: nat, a: nat, b: nat)
    requires d.Valid() && m <= |BalancedSlots(d)| && a < |d.keys| && b < |d.keys|
    requires Occurs(BalancedSlots(d)[..m], d.keys[b]) < d.Get(d.keys[b])
    ensures Occurs(BalancedSlots(d)[..m], d.keys[a]) <= Occurs(BalancedSlots(d)[..m], d.keys[b]) + 1
    ensures b < a ==> Occurs(BalancedSlots(d)[..m], d.keys[a]) <= Occurs(BalancedSlots(d)[..m], d.keys[b])
  {
    var t, k := PrefixOfRounds(d, MostOfFirst(d, |d.keys|), m);
    OccursInBoth(Rounds(d, t), Round(d, t, k), d.keys[a]);
    OccursInBoth(Rounds(d, t), Round(d, t, k), d.keys[b]);
    RoundsServeEvenly(d, t, a);
    RoundsServeEvenly(d, t, b);
    RoundServesOnce(d, t, k, a);
    RoundServesOnce(d, t, k, b);
  }

  lemma {:induction false} RoundsLength(d: Counts, t: nat)
    requires d.Valid()
    ensures |Rounds(d, t)| == ServedOfFirst(d, t, |d.keys|)
  {
    if t == 0 {
      NothingServed(d, |d.keys|);
    } else {
      RoundsLength(d, t - 1);
      RoundLength(d, t - 1, |d.keys|);
    }
  }

  // How many slots the first `k` keys have after `t` rounds.
  function ServedOfFirst(d: Counts, t: nat, k: nat): nat
    requires k <= |d.keys|
  {
    if k == 0 then 0
    else ServedOfFirst(d, t, k - 1) + (if d.Get(d.keys[k - 1]) <= 0 then 0 else if d.Get(d.keys[k - 1]) < t then d.Get(d.keys[k - 1]) else t)
  }

  lemma {:induction false} NothingServed(d: Counts, k: nat)
    requires k <= |d.keys|
    ensures ServedOfFirst(d, 0, k) == 0
  {
    if k > 0 { NothingServed(d, k - 1); }
  }

  lemma {:induction false} RoundLength(d: Counts, t: nat, k: nat)
    requires k <= |d.keys|
    ensures |Round(d, t, k)| == ServedOfFirst(d, t + 1, k) - ServedOfFirst(d, t, k)
  {
    if k > 0 { RoundLength(d, t, k - 1); }
  }

  lemma {:induction false} ServedInFull(d: Counts, t: nat, k: nat)
    requires k <= |d.keys| && d.NonNegative() && forall i :: 0 <= i < k ==> d.Get(d.keys[i]) <= t
    ensures ServedOfFirst(d, t, k) == d.TotalOfFirst(k)
  {
    if k > 0 { ServedInFull(d, t, k - 1); }
  }

  // With counts of the same sum there are as many difficulty slots as knowledge slots.
  lemma {:induction false} SlotsLength(d: Counts)
    requires d.Valid() && d.NonNegative()
    ensures |BalancedSlots(d)| == d.Total() == |KnowledgeSlots(d)|
  {
    var most := MostOfFirst(d, |d.keys|);
    RoundsLength(d, most);
    ServedInFull(d, most, |d.keys|);
    BlocksLength(d, |d.keys|);
  }

  // What is still owed after `t` rounds, and after this round for the keys already passed.
  function Owed(count: int, rounds: nat): int {
    if count <= 0 then count else if count < rounds then 0 else count - rounds
  }

  ghost predicate Owes(d: Counts, remaining: map<Label, int>, t: nat, j: nat) {
    forall i :: 0 <= i < |d.keys| ==>
      d.keys[i] in remaining && remaining[d.keys[i]] == Owed(d.Get(d.keys[i]), if i < j then t + 1 else t)
  }

  // `_expand_balanced_counts`.
  method ExpandBalancedCounts(counts: Counts) returns (values: seq<Label>)
    requires counts.Valid()
    ensures values == BalancedSlots(counts)
  {
    var remaining := counts.at;
    values := [];
    ghost var t := 0;
    ghost var most := MostOfFirst(counts, |counts.keys|);
    while exists i :: 0 <= i < |counts.keys| && remaining[counts.keys[i]] > 0
      invariant t <= most && values == Rounds(counts, t) && Owes(counts, remaining, t, 0)
      decreases most - t
    {
      remaining, values := DealRound(counts, remaining, values, t);
      t := t + 1;
    }
    NoMoreRounds(counts, t, most);
  }

  lemma {:induction false} DealOne(d: Counts, remaining: map<Label, int>, t: nat, j: nat)
    requires d.Valid() && j < |d.keys| && Owes(d, remaining, t, j)
    ensures
      var key := d.keys[j];
      && (remaining[key] > 0 <==> d.Get(key) > t)
      && Owes(d, if remaining[key] > 0 then remaining[key := remaining[key] - 1] else remaining, t, j + 1)
  {
    var key := d.keys[j];
    var after := if remaining[key] > 0 then remaining[key := remaining[key] - 1] else remaining;
    forall i | 0 <= i < |d.keys|
      ensures d.keys[i] in after && after[d.keys[i]] == Owed(d.Get(d.keys[i]), if i < j + 1 then t + 1 else t)
    {
      assert i != j ==> d.keys[i] != key;
    }
  }

  // The inner loop: one slot for every key that is still owed one.
  method DealRound(counts: Counts, owed: map<Label, int>, dealt: seq<Label>, ghost t: nat)
    returns (remaining: map<Label, int>, values: seq<Label>)
    requires counts.Valid() && Owes(counts, owed, t, 0)
    ensures Owes(counts, remaining, t + 1, 0) && values == dealt + Round(counts, t, |counts.keys|)
  {
    remaining, values := owed, dealt;
    for j := 0 to |counts.keys|
      invariant Owes(counts, remaining, t, j) && values == dealt + Round(counts, t, j)
    {
      DealOne(counts, remaining, t, j);
      if remaining[counts.keys[j]] > 0 {
        values := values + [counts.keys[j]];
        remaining := remaining[counts.keys[j] := remaining[counts.keys[j]] - 1];
      }
    }
  }

  // Once nothing is owed, further rounds are empty.
  lemma {:induction false} NoMoreRounds(d: Counts, t: nat, most: nat)
    requires t <= most && forall i :: 0 <= i < |d.keys| ==> d.Get(d.keys[i]) <= t
    ensures Rounds(d, most) == Rounds(d, t)
  {
    if t < most {
      NoMoreRounds(d, t, most - 1);
      EmptyRound(d, most - 1, |d.keys|);
    }
  }

  lemma {:induction false} EmptyRound(d: Counts, t: nat, j: nat)
    requires j <= |d.keys| && forall i :: 0 <= i < |d.keys| ==> d.Get(d.keys[i]) <= t
    ensures Round(d, t, j) == []
  {
    if j > 0 { EmptyRound(d, t, j - 1); }
  }

  // The list comprehension, as the loop it is.
  method ExpandBlocks(counts: Counts) returns (values: seq<Label>)
    ensures values == KnowledgeSlots(counts)
  {
    values := [];
    for k := 0 to |counts.keys|
      invariant values == BlocksOfFirst(counts, k)
    {
      values := values + Repeat(counts.keys[k], counts.Get(counts.keys[k]));
    }
  }
}
