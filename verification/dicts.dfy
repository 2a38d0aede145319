/** A Python `dict` from strings to strings.  Since Python 3.7 a dict remembers
    the order in which its keys were first inserted, and `json.dumps` writes the
    entries in that order, so a dict is modelled as an association list whose
    keys are distinct. */
module Dicts {

  type Item = (string, string)

  datatype Option<T> = None | Some(value: T)

  /** No key occurs twice: the invariant of every dict. */
  predicate DistinctKeys(items: seq<Item>) {
    forall i, j :: 0 <= i < j < |items| ==> items[i].0 != items[j].0
  }

  /** `k in d`. */
  predicate HasKey(items: seq<Item>, k: string) {
    IndexOf(items, k) != -1
  }

  /** The position of the first entry with key `k`, or -1 when there is none. */
  function IndexOf(items: seq<Item>, k: string): (r: int)
    ensures -1 <= r < |items|
    ensures r >= 0 ==> items[r].0 == k
    decreases |items|
  {
    if items == [] then -1
    else if items[0].0 == k then 0
    else
      var r := IndexOf(items[1..], k);
      if r == -1 then -1 else r + 1
  }

  /** IndexOf finds the first entry with key `k`, and finds none exactly when
      no entry has that key. */
  lemma {:induction false} IndexOfFirst(items: seq<Item>, k: string)
    ensures var r := IndexOf(items, k);
            (forall i :: 0 <= i < r ==> items[i].0 != k)
            && (r == -1 <==> forall i :: 0 <= i < |items| ==> items[i].0 != k)
    decreases |items|
  {
    if items != [] && items[0].0 != k {
      IndexOfFirst(items[1..], k);
      assert forall i :: 1 <= i < |items| ==> items[i] == items[1..][i - 1];
    }
  }

  /** The first position holding key `k` is the one IndexOf reports. */
  lemma IndexOfAt(items: seq<Item>, k: string, i: nat)
    requires i < |items| && items[i].0 == k
    requires forall t :: 0 <= t < i ==> items[t].0 != k
    ensures IndexOf(items, k) == i
  {
    IndexOfFirst(items, k);
  }

  /** `d.get(k)`: the value stored under `k`, if any. */
  function Get(items: seq<Item>, k: string): Option<string> {
    var i := IndexOf(items, k);
    if i == -1 then None else Some(items[i].1)
  }

  /** `d[k] = v`: an existing key keeps its position and takes the new value;
      a new key is appended at the end. */
  function Assign(items: seq<Item>, k: string, v: string): seq<Item> {
    var i := IndexOf(items, k);
    if i == -1 then items + [(k, v)] else items[i := (k, v)]
  }

  /** `d.update(other)`: the entries of `other` are assigned into `d` one by one,
      in `other`'s order. */
  function Merge(items: seq<Item>, other: seq<Item>): seq<Item>
    decreases |other|
  {
    if other == [] then items
    else
      var n := |other| - 1;
      Assign(Merge(items, other[..n]), other[n].0, other[n].1)
  }

  /** `d.pop(k)` when `k` is present: the entry for `k` leaves, the others keep
      their order. */
  function Remove(items: seq<Item>, k: string): seq<Item> {
    var i := IndexOf(items, k);
    if i == -1 then items else items[..i] + items[i + 1..]
  }

  /** No entry holds key `k`, so `k` is absent. */
  lemma Absent(items: seq<Item>, k: string)
    requires forall t :: 0 <= t < |items| ==> items[t].0 != k
    ensures IndexOf(items, k) == -1 && !HasKey(items, k)
  {
    IndexOfFirst(items, k);
  }

  /** Assigning a key the dict does not hold yet appends it. */
  lemma AssignNew(items: seq<Item>, k: string, v: string)
    requires forall t :: 0 <= t < |items| ==> items[t].0 != k
    ensures Assign(items, k, v) == items + [(k, v)]
  {
    Absent(items, k);
  }

  /** IndexOf looks at keys only. */
  lemma {:induction false} IndexOfSameKeys(a: seq<Item>, b: seq<Item>, k: string)
    requires |a| == |b|
    requires forall i :: 0 <= i < |a| ==> a[i].0 == b[i].0
    ensures IndexOf(a, k) == IndexOf(b, k)
    decreases |a|
  {
    if a != [] && a[0].0 != k {
      IndexOfSameKeys(a[1..], b[1..], k);
    }
  }

  /** Assigning to `k` makes `k` map to `v`, leaves every other key's value
      alone, and keeps the keys distinct. */
  lemma AssignGet(items: seq<Item>, k: string, v: string, j: string)
    ensures DistinctKeys(items) ==> DistinctKeys(Assign(items, k, v))
    ensures Get(Assign(items, k, v), j) == if j == k then Some(v) else Get(items, j)
  {
    var r := Assign(items, k, v);
    var i := IndexOf(items, k);
    IndexOfFirst(items, k);
    IndexOfFirst(items, j);
    if i == -1 {
      assert forall t :: 0 <= t < |items| ==> r[t] == items[t];
      if j == k {
        IndexOfAt(r, k, |items|);
      } else {
        var ij := IndexOf(items, j);
        if ij == -1 {
          Absent(r, j);
        } else {
          IndexOfAt(r, j, ij);
        }
      }
    } else {
      IndexOfSameKeys(items, r, j);
    }
  }

  /** Merging into a dict keeps its keys distinct. */
  lemma {:induction false} MergeDistinct(items: seq<Item>, other: seq<Item>)
    requires DistinctKeys(items)
    ensures DistinctKeys(Merge(items, other))
    decreases |other|
  {
    if other != [] {
      var n := |other| - 1;
      MergeDistinct(items, other[..n]);
      AssignGet(Merge(items, other[..n]), other[n].0, other[n].1, other[n].0);
    }
  }

  /** In a dict whose keys are distinct, its last entry's key maps to the last
      value, and any other key is found, or not, just as in the entries before
      it. */
  lemma LastEntry(other: seq<Item>, j: string)
    requires DistinctKeys(other) && other != []
    ensures var n := |other| - 1;
            if j == other[n].0 then HasKey(other, j) && Get(other, j) == Some(other[n].1)
            else HasKey(other, j) == HasKey(other[..n], j) && Get(other, j) == Get(other[..n], j)
  {
    var n := |other| - 1;
    var front := other[..n];
    if j == other[n].0 {
      IndexOfAt(other, j, n);
    } else {
      IndexOfFirst(front, j);
      var t := IndexOf(front, j);
      if t == -1 {
        Absent(other, j);
      } else {
        IndexOfAt(other, j, t);
      }
    }
  }

  /** The values a merged dict holds, key by key, when `other`'s keys are
      distinct: the value from `other` where it has the key, else the old one. */
  lemma {:induction false} MergeGet(items: seq<Item>, other: seq<Item>, j: string)
    requires DistinctKeys(other)
    ensures Get(Merge(items, other), j) == if HasKey(other, j) then Get(other, j) else Get(items, j)
    decreases |other|
  {
    if other != [] {
      var n := |other| - 1;
      MergeGet(items, other[..n], j);
      AssignGet(Merge(items, other[..n]), other[n].0, other[n].1, j);
      LastEntry(other, j);
    }
  }

  /** Merging entries whose keys are all new appends them in order. */
  lemma {:induction false} MergeFresh(items: seq<Item>, other: seq<Item>)
    requires DistinctKeys(items + other)
    ensures Merge(items, other) == items + other
    decreases |other|
  {
    if other != [] {
      var n := |other| - 1;
      var front := items + other[..n];
      assert (items + other)[..|items| + n] == front;
      MergeFresh(items, other[..n]);
      assert forall t :: 0 <= t < |front| ==> front[t] == (items + other)[t];
      assert (items + other)[|items| + n] == other[n];
      Absent(front, other[n].0);
      assert items + other == front + [other[n]];
    }
  }

  /** Removing `k` from a dict: `k` is gone and the keys stay distinct. */
  lemma RemoveGone(items: seq<Item>, k: string)
    requires DistinctKeys(items)
    ensures DistinctKeys(Remove(items, k))
    ensures !HasKey(Remove(items, k), k)
  {
    var i := IndexOf(items, k);
    var r := Remove(items, k);
    if i != -1 {
      assert forall t :: 0 <= t < |r| ==> r[t] == if t < i then items[t] else items[t + 1];
      Absent(r, k);
    }
  }

  /** Removing `k` leaves the value of every other key as it was. */
  lemma RemoveGet(items: seq<Item>, k: string, j: string)
    requires j != k
    ensures Get(Remove(items, k), j) == Get(items, j)
  {
    var i := IndexOf(items, k);
    var r := Remove(items, k);
    if i != -1 {
      assert forall t :: 0 <= t < |r| ==> r[t] == if t < i then items[t] else items[t + 1];
      IndexOfFirst(items, j);
      var ij := IndexOf(items, j);
      if ij == -1 {
        Absent(r, j);
      } else if ij < i {
        IndexOfAt(r, j, ij);
      } else {
        IndexOfAt(r, j, ij - 1);
      }
    }
  }

  /** A Python dict object, updated in place. */
  class Dict {
    var items: seq<Item>

    ghost predicate Valid()
      reads this
    {
      DistinctKeys(items)
    }

    /** A dict display `{k1: v1, k2: v2, ...}`, evaluated left to right. */
    constructor (entries: seq<Item>)
      ensures Valid() && items == Merge([], entries)
    {
      var acc: seq<Item> := [];
      var i := 0;
      while i < |entries|
        invariant 0 <= i <= |entries|
        invariant DistinctKeys(acc) && acc == Merge([], entries[..i])
      {
        assert entries[..i + 1][..i] == entries[..i];
        AssignGet(acc, entries[i].0, entries[i].1, entries[i].0);
        acc := Assign(acc, entries[i].0, entries[i].1);
        i := i + 1;
      }
      assert entries[..|entries|] == entries;
      items := acc;
    }

    /** `d[k] = v`. */
    method Set(k: string, v: string)
      requires Valid()
      modifies this
      ensures Valid() && items == Assign(old(items), k, v)
      ensures Get(items, k) == Some(v)
      ensures forall j :: j != k ==> Get(items, j) == Get(old(items), j)
    {
      AssignGet(items, k, v, k);
      forall j
        ensures Get(Assign(items, k, v), j) == if j == k then Some(v) else Get(items, j)
      {
        AssignGet(items, k, v, j);
      }
      items := Assign(items, k, v);
    }

    /** `d.update(other)`: `other`'s entries are read before any is written, so
        the result is the same when `other` is `d` itself. */
    method Update(other: Dict)
      requires Valid() && other.Valid()
      modifies this
      ensures Valid() && items == Merge(old(items), old(other.items))
    {
      var src := other.items;
      var i := 0;
      while i < |src|
        invariant 0 <= i <= |src|
        invariant Valid() && items == Merge(old(items), src[..i])
      {
        assert src[..i + 1][..i] == src[..i];
        Set(src[i].0, src[i].1);
        i := i + 1;
      }
      assert src[..|src|] == src;
    }

    /** `d.pop(k)`: the value under `k`, removed from the dict; `None` stands for
        the `KeyError` that Python raises when `k` is absent, and then the dict
        is left as it was. */
    method Pop(k: string) returns (r: Option<string>)
      requires Valid()
      modifies this
      ensures Valid()
      ensures r == Get(old(items), k)
      ensures r.None? ==> items == old(items)
      ensures r.Some? ==> items == Remove(old(items), k)
      ensures !HasKey(items, k)
      ensures forall j :: j != k ==> Get(items, j) == Get(old(items), j)
    {
      r := Get(items, k);
      if r.Some? {
        RemoveGone(items, k);
        forall j | j != k
          ensures Get(Remove(items, k), j) == Get(items, j)
        {
          RemoveGet(items, k, j);
        }
        items := Remove(items, k);
      }
    }
  }
}
