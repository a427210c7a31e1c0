// A Python `dict[str, int]`: the counts together with the order in which the keys were inserted.
module OrderedCounts {

  // A topic code or a difficulty.
  datatype Label = Label(text: string)

  datatype Counts = Counts(keys: seq<Label>, at: map<Label, int>) {
    ghost predicate Valid() {
      && (forall i, j :: 0 <= i < j < |keys| ==> keys[i] != keys[j])
      && (forall key :: key in at <==> key in keys)
    }

    function Get(key: Label): int { if key in at then at[key] else 0 }

    function TotalOfFirst(k: nat): int
      requires k <= |keys|
    {
      if k == 0 then 0 else TotalOfFirst(k - 1) + Get(keys[k - 1])
    }

    function Total(): int { TotalOfFirst(|keys|) }

    // `d[key] = n`.
    function Put(key: Label, n: int): Counts {
      Counts(if key in at then keys else keys + [key], at[key := n])
    }

    // `d[key] = d.get(key, 0) + 1`.
    function Bump(key: Label): Counts { Put(key, Get(key) + 1) }

    ghost predicate NonNegative() { forall i :: 0 <= i < |keys| ==> Get(keys[i]) >= 0 }
  }

  const NO_COUNTS := Counts([], map[])

  lemma {:induction false} PutTotalOfFirst(d: Counts, key: Label, n: int, i: nat, k: nat)
    requires d.Valid() && i < |d.keys| && d.keys[i] == key && k <= |d.keys|
    ensures d.Put(key, n).TotalOfFirst(k) == d.TotalOfFirst(k) + if i < k then n - d.Get(key) else 0
  {
    if k > 0 {
      PutTotalOfFirst(d, key, n, i, k - 1);
      assert k - 1 != i ==> d.keys[k - 1] != key;
    }
  }

  lemma {:induction false} AppendTotalOfFirst(d: Counts, key: Label, n: int, k: nat)
    requires d.Valid() && key !in d.at && k <= |d.keys|
    ensures d.Put(key, n).TotalOfFirst(k) == d.TotalOfFirst(k)
  {
    if k > 0 {
      AppendTotalOfFirst(d, key, n, k - 1);
      assert d.Put(key, n).keys[k - 1] == d.keys[k - 1];
    }
  }

  lemma {:induction false} PutTotal(d: Counts, key: Label, n: int)
    requires d.Valid()
    ensures d.Put(key, n).Valid()
    ensures d.Put(key, n).Total() == d.Total() + n - d.Get(key)
    ensures forall k :: d.Put(key, n).Get(k) == if k == key then n else d.Get(k)
  {
    if key in d.at {
      PutExisting(d, key, n);
    } else {
      PutNew(d, key, n);
    }
  }

  lemma {:induction false} PutExisting(d: Counts, key: Label, n: int)
    requires d.Valid() && key in d.at
    ensures d.Put(key, n).Valid()
    ensures d.Put(key, n).Total() == d.Total() + n - d.Get(key)
  {
    var i :| 0 <= i < |d.keys| && d.keys[i] == key;
    PutTotalOfFirst(d, key, n, i, |d.keys|);
  }

  lemma {:induction false} PutNew(d: Counts, key: Label, n: int)
    requires d.Valid() && key !in d.at
    ensures d.Put(key, n).Valid()
    ensures d.Put(key, n).Total() == d.Total() + n - d.Get(key)
  {
    var e := d.Put(key, n);
    AppendTotalOfFirst(d, key, n, |d.keys|);
    assert e.keys[|d.keys|] == key;
    forall k ensures k in e.at <==> k in e.keys {
      assert k in e.keys <==> k in d.keys || k == key;
    }
  }

  // `Counter(items)[item]`.
  function Occurs<T(==)>(items: seq<T>, item: T): nat { OccursInFirst(items, item, |items|) }

  function OccursInFirst<T(==)>(items: seq<T>, item: T, k: nat): nat
    requires k <= |items|
  {
    if k == 0 then 0 else OccursInFirst(items, item, k - 1) + if items[k - 1] == item then 1 else 0
  }

  lemma {:induction false} OccursInPrefix<T>(a: seq<T>, b: seq<T>, item: T, k: nat)
    requires k <= |a|
    ensures OccursInFirst(a + b, item, k) == OccursInFirst(a, item, k)
  {
    if k > 0 { OccursInPrefix(a, b, item, k - 1); }
  }

  lemma {:induction false} OccursInMore<T>(a: seq<T>, b: seq<T>, item: T, k: nat)
    requires k <= |b|
    ensures OccursInFirst(a + b, item, |a| + k) == Occurs(a, item) + OccursInFirst(b, item, k)
  {
    if k == 0 {
      OccursInPrefix(a, b, item, |a|);
    } else {
      OccursInMore(a, b, item, k - 1);
    }
  }

  lemma {:induction false} OccursInBoth<T>(a: seq<T>, b: seq<T>, item: T)
    ensures Occurs(a + b, item) == Occurs(a, item) + Occurs(b, item)
  {
    OccursInMore(a, b, item, |b|);
  }

  lemma {:induction false} OccursWithOneMore<T>(items: seq<T>, one: T, item: T)
    ensures Occurs(items + [one], item) == Occurs(items, item) + if one == item then 1 else 0
  {
    OccursInPrefix(items, [one], item, |items|);
  }

  lemma {:induction false} OccursIffMember<T>(items: seq<T>, item: T, k: nat)
    requires k <= |items|
    ensures OccursInFirst(items, item, k) > 0 <==> exists i :: 0 <= i < k && items[i] == item
  {
    if k > 0 { OccursIffMember(items, item, k - 1); }
  }

  function Repeat<T>(item: T, n: int): (r: seq<T>)
    ensures |r| == if n > 0 then n else 0
    ensures forall i :: 0 <= i < |r| ==> r[i] == item
    decreases n
  {
    if n <= 0 then [] else Repeat(item, n - 1) + [item]
  }

  lemma {:induction false} RepeatOccurs<T>(one: T, n: int, item: T)
    ensures Occurs(Repeat(one, n), item) == if one == item && n > 0 then n else 0
    decreases n
  {
    if n > 0 {
      RepeatOccurs(one, n - 1, item);
      OccursWithOneMore(Repeat(one, n - 1), one, item);
    }
  }
}
