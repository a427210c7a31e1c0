// app/application/mock_exams.py, the specialized part of `_desired_knowledge_counts`: three fifths of the
// questions go to the chapter, by largest remainders; the rest is dealt to the topics outside it.
module SpecializedPaper {
  import opened OrderedCounts
  import opened Rounding
  import opened Apportionment
  import opened ExamAssembly

  function TargetCount(questionCount: nat): (target: nat)
    ensures target <= questionCount
  {
    RoundIsMonotone(0.0, questionCount as real * 0.6);
    RoundIsMonotone(questionCount as real * 0.6, questionCount as real);
    RoundHalfEven(questionCount as real * 0.6)
  }

  // Three fifths, rounded: the one integer within four tenths of them.
  predicate ThreeFifths(target: int, questionCount: nat) { -4 <= 10 * target - 6 * questionCount <= 4 }

  lemma {:induction false} TargetIsThreeFifths(questionCount: nat)
    ensures ThreeFifths(TargetCount(questionCount), questionCount)
    ensures forall t: int :: ThreeFifths(t, questionCount) ==> t == TargetCount(questionCount)
  {
    RoundIsClose(questionCount as real * 0.6);
  }

  predicate InScope(ranked: seq<Signal>, code: Label) { exists i :: 0 <= i < |ranked| && ranked[i].code == code }

  // The codes outside the chapter, each as often as the profile asks for it.
  function OutsideOfFirst(base: Counts, ranked: seq<Signal>, k: nat): seq<Label>
    requires k <= |base.keys|
  {
    if k == 0 then []
    else if InScope(ranked, base.keys[k - 1]) then OutsideOfFirst(base, ranked, k - 1)
    else OutsideOfFirst(base, ranked, k - 1) + Repeat(base.keys[k - 1], base.Get(base.keys[k - 1]))
  }

  function Outside(base: Counts, ranked: seq<Signal>): seq<Label> { OutsideOfFirst(base, ranked, |base.keys|) }

  lemma {:induction false} OutsideIsOutside(base: Counts, ranked: seq<Signal>, k: nat)
    requires k <= |base.keys|
    ensures forall i :: 0 <= i < |OutsideOfFirst(base, ranked, k)| ==> !InScope(ranked, OutsideOfFirst(base, ranked, k)[i])
  {
    if k > 0 { OutsideIsOutside(base, ranked, k - 1); }
  }

  function Codes(ranked: seq<Signal>): seq<Label> { seq(|ranked|, i requires 0 <= i < |ranked| => ranked[i].code) }

  // How many of the first `m` questions, dealt round and round, go to a code.
  function DealtOfFirst(fallback: seq<Label>, code: Label, m: nat): nat
    requires fallback != []
  {
    if m == 0 then 0
    else DealtOfFirst(fallback, code, m - 1) + if fallback[(m - 1) % |fallback|] == code then 1 else 0
  }

  lemma {:induction false} NothingDealtElsewhere(fallback: seq<Label>, code: Label, m: nat)
    requires fallback != [] && forall i :: 0 <= i < |fallback| ==> fallback[i] != code
    ensures DealtOfFirst(fallback, code, m) == 0
  {
    if m > 0 { NothingDealtElsewhere(fallback, code, m - 1); }
  }

  method CollectOutside(base: Counts, ranked: seq<Signal>) returns (outside: seq<Label>)
    ensures outside == Outside(base, ranked)
  {
    outside := [];
    for k := 0 to |base.keys|
      invariant outside == OutsideOfFirst(base, ranked, k)
    {
      if !InScope(ranked, base.keys[k]) {
        outside := outside + Repeat(base.keys[k], base.Get(base.keys[k]));
      }
    }
  }

  // The chapter's counts after `m` questions have been dealt to the fallback codes.
  ghost predicate Dealt(result: Counts, chapter: Counts, fallback: seq<Label>, m: nat)
    requires fallback != []
  {
    && result.Valid() && result.Total() == chapter.Total() + m
    && forall key :: result.Get(key) == chapter.Get(key) + DealtOfFirst(fallback, key, m)
  }

  method Deal(chapter: Counts, fallback: seq<Label>, outsideCount: nat) returns (result: Counts)
    requires chapter.Valid() && fallback != []
    ensures Dealt(result, chapter, fallback, outsideCount)
  {
    result := chapter;
    for index := 0 to outsideCount
      invariant Dealt(result, chapter, fallback, index)
    {
      var code := fallback[index % |fallback|];
      PutTotal(result, code, result.Get(code) + 1);
      result := result.Bump(code);
    }
  }

  // The profile asks for a topic outside the chapter.
  predicate NamesOutside(base: Counts, ranked: seq<Signal>) {
    exists i :: 0 <= i < |base.keys| && !InScope(ranked, base.keys[i]) && base.Get(base.keys[i]) > 0
  }

  lemma {:induction false} OutsideIffNamed(base: Counts, ranked: seq<Signal>, k: nat)
    requires k <= |base.keys|
    ensures OutsideOfFirst(base, ranked, k) != [] <==>
              exists i :: 0 <= i < k && !InScope(ranked, base.keys[i]) && base.Get(base.keys[i]) > 0
  {
    if k > 0 { OutsideIffNamed(base, ranked, k - 1); }
  }

  // What the first `k` topics of the chapter get.
  function ChapterTotal(result: Counts, ranked: seq<Signal>, k: nat): int
    requires k <= |ranked|
  {
    if k == 0 then 0 else ChapterTotal(result, ranked, k - 1) + result.Get(ranked[k - 1].code)
  }

  lemma {:induction false} ChapterTotalIsCount(result: Counts, ranked: seq<Signal>, shares: seq<int>, k: nat)
    requires k <= |ranked| == |shares| && forall i :: 0 <= i < |ranked| ==> result.Get(ranked[i].code) == shares[i]
    ensures ChapterTotal(result, ranked, k) == CountOfFirst(shares, k)
  {
    if k > 0 { ChapterTotalIsCount(result, ranked, shares, k - 1); }
  }

  // Dealing round and round gives a code its occurrences once per full round, and those of the begun round.
  lemma {:induction false} DealtInRounds(fallback: seq<Label>, code: Label, m: nat, full: nat, begun: nat)
    requires fallback != [] && begun < |fallback| && m == full * |fallback| + begun
    ensures DealtOfFirst(fallback, code, m) == full * Occurs(fallback, code) + OccursInFirst(fallback, code, begun)
    decreases m
  {
    var n := |fallback|;
    if begun > 0 {
      ModOfRound(m - 1, full, n, begun - 1);
      DealtInRounds(fallback, code, m - 1, full, begun - 1);
    } else if full > 0 {
      assert m - 1 == (full - 1) * n + (n - 1) by { RoundBack(full, n); }
      ModOfRound(m - 1, full - 1, n, n - 1);
      DealtInRounds(fallback, code, m - 1, full - 1, n - 1);
      RoundBack(full, Occurs(fallback, code));
    }
  }

  lemma {:induction false} RoundBack(full: int, n: int)
    ensures (full - 1) * n == full * n - n
  {
  }

  lemma {:induction false} ModOfRound(m: nat, full: nat, n: nat, begun: nat)
    requires n > 0 && begun < n && m == full * n + begun
    ensures m % n == begun
  {
    var whole := m / n - full;
    assert whole * n == begun - m % n by {
      assert m == n * (m / n) + m % n;
      TimesLess(m / n, full, n);
    }
    if whole > 0 { AtLeastOne(whole, n); } else if whole < 0 { AtLeastOne(-whole, n); TimesLess(0, whole, n); }
  }

  lemma {:induction false} TimesLess(x: int, y: int, n: int)
    ensures (x - y) * n == n * x - y * n
  {
  }

  lemma {:induction false} AtLeastOne(x: int, n: nat)
    requires x >= 1
    ensures x * n >= n
  {
  }

  // Each topic of the chapter gets its share and no more, and together they get the chapter's questions.
  ghost predicate GetsItsShares(result: Counts, ranked: seq<Signal>, shares: seq<int>, target: int) {
    && |shares| == |ranked|
    && (forall i :: 0 <= i < |ranked| ==> result.Get(ranked[i].code) == shares[i])
    && ChapterTotal(result, ranked, |ranked|) == target
  }

  lemma {:induction false} ChapterGetsItsShares(base: Counts, ranked: seq<Signal>, shares: seq<int>, result: Counts,
      target: int, rest: nat)
    requires Outside(base, ranked) != [] && |shares| == |ranked| && CountOfFirst(shares, |shares|) == target
    requires Dealt(result, NonZero(ranked, shares, |ranked|), Outside(base, ranked), rest)
    requires forall i :: 0 <= i < |ranked| ==> NonZero(ranked, shares, |ranked|).Get(ranked[i].code) == shares[i]
    ensures GetsItsShares(result, ranked, shares, target)
    ensures DealtOutside(result, base, ranked, rest)
  {
    ChapterIsUntouched(base, ranked, shares, result, rest);
    ChapterTotalIsCount(result, ranked, shares, |ranked|);
    OutsideIsDealt(result, base, ranked, shares, rest);
  }

  // Without outside topics the rest goes round the chapter: each topic gets one more per full round, and the
  // first ones one more for the begun round.
  ghost predicate DealtInside(result: Counts, ranked: seq<Signal>, shares: seq<int>, rest: nat) {
    && ranked != [] && |shares| == |ranked|
    && forall i :: 0 <= i < |ranked| ==>
         result.Get(ranked[i].code) == shares[i] + rest / |ranked| + if i < rest % |ranked| then 1 else 0
  }

  lemma {:induction false} CodeOccursOnce(ranked: seq<Signal>, i: nat, k: nat)
    requires DistinctCodes(ranked) && i < |ranked| && k <= |ranked|
    ensures OccursInFirst(Codes(ranked), ranked[i].code, k) == if i < k then 1 else 0
  {
    if k > 0 {
      CodeOccursOnce(ranked, i, k - 1);
      assert Codes(ranked)[k - 1] == ranked[k - 1].code;
    }
  }

  lemma {:induction false} InsideIsDealt(result: Counts, ranked: seq<Signal>, shares: seq<int>, rest: nat)
    requires DistinctCodes(ranked) && ranked != [] && |shares| == |ranked|
    requires Dealt(result, NonZero(ranked, shares, |ranked|), Codes(ranked), rest)
    requires forall i :: 0 <= i < |ranked| ==> NonZero(ranked, shares, |ranked|).Get(ranked[i].code) == shares[i]
    ensures DealtInside(result, ranked, shares, rest)
  {
    forall i | 0 <= i < |ranked|
      ensures result.Get(ranked[i].code) == shares[i] + rest / |ranked| + if i < rest % |ranked| then 1 else 0
    {
      InsideShare(ranked, i, rest);
    }
  }

  lemma {:induction false} InsideShare(ranked: seq<Signal>, i: nat, rest: nat)
    requires DistinctCodes(ranked) && i < |ranked|
    ensures DealtOfFirst(Codes(ranked), ranked[i].code, rest) == rest / |ranked| + if i < rest % |ranked| then 1 else 0
  {
    var full, begun := QuotientAndRest(rest, |ranked|);
    DealtToTopic(ranked, i, rest, full, begun);
  }

  lemma {:induction false} QuotientAndRest(m: nat, n: nat) returns (full: nat, begun: nat)
    requires n > 0
    ensures full == m / n && begun == m % n && begun < n && m == full * n + begun
  {
    full, begun := m / n, m % n;
  }

  lemma {:induction false} DealtToTopic(ranked: seq<Signal>, i: nat, rest: nat, full: nat, begun: nat)
    requires DistinctCodes(ranked) && i < |ranked| && begun < |ranked| && rest == full * |ranked| + begun
    ensures DealtOfFirst(Codes(ranked), ranked[i].code, rest) == full + if i < begun then 1 else 0
  {
    DealtInRounds(Codes(ranked), ranked[i].code, rest, full, begun);
    CodeOccursOnce(ranked, i, |ranked|);
    CodeOccursOnce(ranked, i, begun);
  }

  lemma {:induction false} Concludes(base: Counts, ranked: seq<Signal>, shares: seq<int>, result: Counts, target: nat,
      rest: nat)
    requires Accurate(ranked) && DistinctCodes(ranked) && Hamilton(Quotas(ranked, target), shares, target)
    requires SharedOut(base, ranked, shares, result, target, rest)
    ensures Wanted(result, target + rest)
    ensures NamesOutside(base, ranked) ==> GetsItsShares(result, ranked, shares, target)
    ensures NamesOutside(base, ranked) ==> DealtOutside(result, base, ranked, rest)
    ensures !NamesOutside(base, ranked) ==> DealtInside(result, ranked, shares, rest)
  {
    OutsideIffNamed(base, ranked, |base.keys|);
    DealtIsWanted(ranked, shares, target, result, Fallback(base, ranked), rest);
    if NamesOutside(base, ranked) {
      ChapterGetsItsShares(base, ranked, shares, result, target, rest);
    } else {
      InsideIsDealt(result, ranked, shares, rest);
    }
  }

  // The counts are nonnegative and sum to the paper's length, as the slots require.  Three fifths are shared in
  // the chapter by Hamilton's method.  If the profile asks for any topic outside it, the chapter gets exactly
  // those, and the rest is dealt to the outside topics, each as often per round as the profile asks for it;
  // otherwise the rest goes round the chapter.
  method SpecializedCounts(base: Counts, ranked: seq<Signal>, questionCount: nat)
    returns (result: Counts, ghost shares: seq<int>, ghost target: nat)
    requires Accurate(ranked) && DistinctCodes(ranked) && ranked != []
    ensures ThreeFifths(target, questionCount) && target <= questionCount
    ensures Hamilton(Quotas(ranked, target), shares, target)
    ensures Wanted(result, questionCount)
    ensures NamesOutside(base, ranked) ==> GetsItsShares(result, ranked, shares, target)
    ensures NamesOutside(base, ranked) ==> DealtOutside(result, base, ranked, questionCount - target)
    ensures !NamesOutside(base, ranked) ==> DealtInside(result, ranked, shares, questionCount - target)
  {
    var targetCount := TargetCount(questionCount);
    target := targetCount;
    TargetIsThreeFifths(questionCount);
    result, shares := ShareOut(base, ranked, targetCount, questionCount - targetCount);
    Concludes(base, ranked, shares, result, targetCount, questionCount - targetCount);
  }

  // The chapter's shares with the remaining questions dealt to the outside topics, or to the chapter's own when
  // there are none.
  method ShareOut(base: Counts, ranked: seq<Signal>, targetCount: nat, rest: nat) returns (result: Counts,
      ghost shares: seq<int>)
    requires Accurate(ranked) && DistinctCodes(ranked) && ranked != []
    ensures Hamilton(Quotas(ranked, targetCount), shares, targetCount)
    ensures SharedOut(base, ranked, shares, result, targetCount, rest)
  {
    var chapter, c := SpecializedTargetCounts(ranked, targetCount);
    shares := c;
    var outside := CollectOutside(base, ranked);
    result := Deal(chapter, if outside != [] then outside else Codes(ranked), rest);
  }

  function Fallback(base: Counts, ranked: seq<Signal>): seq<Label> {
    if Outside(base, ranked) != [] then Outside(base, ranked) else Codes(ranked)
  }

  ghost predicate SharedOut(base: Counts, ranked: seq<Signal>, shares: seq<int>, result: Counts, targetCount: int,
      rest: nat) {
    && ranked != [] && |shares| == |ranked|
    && NonZero(ranked, shares, |ranked|).Total() == targetCount
    && (forall i :: 0 <= i < |ranked| ==> NonZero(ranked, shares, |ranked|).Get(ranked[i].code) == shares[i])
    && Dealt(result, NonZero(ranked, shares, |ranked|), Fallback(base, ranked), rest)
  }

  // Every code outside the chapter gets its occurrences per full round and those of the begun one; a code that
  // is neither in the chapter nor asked for gets nothing.
  ghost predicate DealtOutside(result: Counts, base: Counts, ranked: seq<Signal>, rest: nat) {
    var outside := Outside(base, ranked);
    && outside != []
    && forall code :: !InScope(ranked, code) ==>
         result.Get(code) == (rest / |outside|) * Occurs(outside, code) + OccursInFirst(outside, code, rest % |outside|)
  }

  lemma {:induction false} OutsideIsDealt(result: Counts, base: Counts, ranked: seq<Signal>, shares: seq<int>,
      rest: nat)
    requires Outside(base, ranked) != [] && |shares| == |ranked|
    requires Dealt(result, NonZero(ranked, shares, |ranked|), Outside(base, ranked), rest)
    ensures DealtOutside(result, base, ranked, rest)
  {
    var outside := Outside(base, ranked);
    forall code | !InScope(ranked, code)
      ensures result.Get(code) == (rest / |outside|) * Occurs(outside, code) + OccursInFirst(outside, code, rest % |outside|)
    {
      NothingElsewhere(ranked, shares, |ranked|, code);
      DealtInRounds(outside, code, rest, rest / |outside|, rest % |outside|);
    }
  }

  lemma {:induction false} NothingElsewhere(ranked: seq<Signal>, shares: seq<int>, k: nat, code: Label)
    requires |ranked| == |shares| && k <= |shares| && !InScope(ranked, code)
    ensures NonZero(ranked, shares, k).Get(code) == 0
  {
    if k > 0 {
      NothingElsewhere(ranked, shares, k - 1, code);
      assert ranked[k - 1].code != code;
    }
  }

  lemma {:induction false} DealtIsWanted(ranked: seq<Signal>, shares: seq<int>, total: nat, result: Counts,
      fallback: seq<Label>, m: nat)
    requires Accurate(ranked) && DistinctCodes(ranked) && ranked != [] && Hamilton(Quotas(ranked, total), shares, total)
    requires fallback != [] && Dealt(result, NonZero(ranked, shares, |ranked|), fallback, m)
    requires NonZero(ranked, shares, |ranked|).Total() == total
    ensures Wanted(result, total + m)
  {
    CountsAreNonNegative(ranked, shares, total);
  }

  lemma {:induction false} ChapterIsUntouched(base: Counts, ranked: seq<Signal>, shares: seq<int>, result: Counts,
      m: nat)
    requires Outside(base, ranked) != [] && |shares| == |ranked|
    requires Dealt(result, NonZero(ranked, shares, |ranked|), Outside(base, ranked), m)
    requires forall i :: 0 <= i < |ranked| ==> NonZero(ranked, shares, |ranked|).Get(ranked[i].code) == shares[i]
    ensures forall i :: 0 <= i < |ranked| ==> result.Get(ranked[i].code) == shares[i]
  {
    OutsideIsOutside(base, ranked, |base.keys|);
    forall i | 0 <= i < |ranked| ensures result.Get(ranked[i].code) == shares[i] {
      NothingDealtElsewhere(Outside(base, ranked), ranked[i].code, m);
    }
  }

  lemma {:induction false} CountsAreNonNegative(ranked: seq<Signal>, shares: seq<int>, total: nat)
    requires Accurate(ranked) && DistinctCodes(ranked) && ranked != [] && Hamilton(Quotas(ranked, total), shares, total)
    ensures forall key :: NonZero(ranked, shares, |ranked|).Get(key) >= 0
  {
    var rate := Rate(ranked, total);
    forall i | 0 <= i < |shares| ensures shares[i] >= 0 { QuotaAt(ranked, total, i, rate); }
    forall key ensures NonZero(ranked, shares, |ranked|).Get(key) >= 0 {
      NonZeroIsNonNegative(ranked, shares, |ranked|, key);
    }
  }

  lemma {:induction false} NonZeroIsNonNegative(ranked: seq<Signal>, shares: seq<int>, k: nat, key: Label)
    requires |ranked| == |shares| && k <= |shares|
    ensures NonZero(ranked, shares, k).Get(key) >= 0
  {
    if k > 0 { NonZeroIsNonNegative(ranked, shares, k - 1, key); }
  }
}
