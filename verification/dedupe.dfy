/**
 `updated_unique`: the updated instances of one model collapsed to one per primary
 key, built the way the Python dict comprehension `{inst.pk: inst for inst in xs}`
 builds it, and specified independently by first and last occurrences.
 */
module Dedupe {
  import opened ChangeRegistry

  /** Index of the first entry with primary key `p`, or -1 when there is none. */
  function FirstIndex(xs: seq<Instance>, p: Pk): (i: int)
    ensures -1 <= i < |xs|
    ensures i == -1 <==> forall j :: 0 <= j < |xs| ==> xs[j].pk != p
    ensures i >= 0 ==> xs[i].pk == p && forall j :: 0 <= j < i ==> xs[j].pk != p
  {
    if xs == [] then -1
    else if xs[0].pk == p then 0
    else
      var i := FirstIndex(xs[1..], p);
      if i < 0 then -1 else i + 1
  }

  /** Index of the last entry with primary key `p`, or -1 when there is none. */
  function LastIndex(xs: seq<Instance>, p: Pk): (i: int)
    ensures -1 <= i < |xs|
    ensures i == -1 <==> forall j :: 0 <= j < |xs| ==> xs[j].pk != p
    ensures i >= 0 ==> xs[i].pk == p && forall j :: i < j < |xs| ==> xs[j].pk != p
  {
    if xs == [] then -1
    else if xs[|xs| - 1].pk == p then |xs| - 1
    else LastIndex(xs[..|xs| - 1], p)
  }

  /** The primary keys occurring in `xs`. */
  function Pks(xs: seq<Instance>): (r: set<Pk>)
    ensures forall i :: 0 <= i < |xs| ==> xs[i].pk in r
    ensures forall p :: p in r ==> exists i :: 0 <= i < |xs| && xs[i].pk == p
  {
    set x | x in xs :: x.pk
  }

  /**
   What de-duplicating `xs` by primary key must yield: one entry per primary key
   of `xs`, each the last entry of `xs` with that key, ordered by where each key
   first occurs in `xs`.
   */
  ghost predicate IsDedupOf(xs: seq<Instance>, r: seq<Instance>)
  {
    && Pks(r) == Pks(xs)
    && (forall k :: 0 <= k < |r| ==>
          0 <= LastIndex(xs, r[k].pk) && r[k] == xs[LastIndex(xs, r[k].pk)])
    && (forall k1, k2 :: 0 <= k1 < k2 < |r| ==>
          FirstIndex(xs, r[k1].pk) < FirstIndex(xs, r[k2].pk))
  }

  /** An insertion-ordered Python dict from primary key to instance. */
  datatype PkDict = PkDict(keys: seq<Pk>, vals: map<Pk, Instance>)

  /** Extending a sequence leaves the first occurrence of every key it already held. */
  lemma FirstIndexExtend(xs: seq<Instance>, x: Instance, p: Pk)
    requires FirstIndex(xs, p) >= 0
    ensures FirstIndex(xs + [x], p) == FirstIndex(xs, p)
  {
    var f := FirstIndex(xs, p);
    var g := FirstIndex(xs + [x], p);
    assert (xs + [x])[f].pk == p;
    assert g <= f;
    assert xs[g] == (xs + [x])[g];
  }

  /** A key new to a sequence first occurs at the entry that extends it. */
  lemma FirstIndexNew(xs: seq<Instance>, x: Instance)
    requires FirstIndex(xs, x.pk) == -1
    ensures FirstIndex(xs + [x], x.pk) == |xs|
  {
    var g := FirstIndex(xs + [x], x.pk);
    assert (xs + [x])[|xs|].pk == x.pk;
  }

  /** The last occurrence of a key in an extended sequence. */
  lemma LastIndexExtend(xs: seq<Instance>, x: Instance, p: Pk)
    ensures LastIndex(xs + [x], p) == if x.pk == p then |xs| else LastIndex(xs, p)
  {
    assert (xs + [x])[..|xs|] == xs;
  }

  /** `d` is the dict the comprehension has built after reading all of `xs`. */
  ghost predicate Represents(xs: seq<Instance>, d: PkDict)
  {
    && d.vals.Keys == Pks(xs)
    && (forall p :: p in d.vals <==> p in d.keys)
    && OrderedByFirst(xs, d.keys)
    && (forall p :: p in d.vals ==>
          0 <= LastIndex(xs, p) && d.vals[p] == xs[LastIndex(xs, p)])
    && |d.keys| <= |xs|
  }

  /** One step of the comprehension: insert the key if new, overwrite its value. */
  function Insert(d: PkDict, x: Instance): PkDict
  {
    PkDict(if x.pk in d.vals then d.keys else d.keys + [x.pk], d.vals[x.pk := x])
  }

  lemma PksExtend(xs: seq<Instance>, x: Instance)
    ensures Pks(xs + [x]) == Pks(xs) + {x.pk}
  {
    var ys := xs + [x];
    assert forall i :: 0 <= i < |xs| ==> ys[i] == xs[i];
    assert ys[|xs|] == x;
  }

  /** The keys already in the dict keep their first occurrence when an entry is appended. */
  lemma OldKeysKeepFirst(xs: seq<Instance>, d: PkDict, x: Instance)
    requires Represents(xs, d)
    ensures forall k :: 0 <= k < |d.keys| ==>
              0 <= FirstIndex(xs + [x], d.keys[k]) == FirstIndex(xs, d.keys[k]) < |xs|
  {
    forall k | 0 <= k < |d.keys|
      ensures 0 <= FirstIndex(xs + [x], d.keys[k]) == FirstIndex(xs, d.keys[k]) < |xs|
    {
      assert d.keys[k] in d.vals;
      FirstIndexExtend(xs, x, d.keys[k]);
    }
  }

  /** Keys ordered by their first occurrence in `xs`. */
  ghost predicate OrderedByFirst(xs: seq<Instance>, keys: seq<Pk>)
  {
    forall k1, k2 :: 0 <= k1 < k2 < |keys| ==> 0 <= FirstIndex(xs, keys[k1]) < FirstIndex(xs, keys[k2])
  }

  /** Keys keep their first-occurrence order when an entry is inserted. */
  lemma InsertKeepsOrder(xs: seq<Instance>, d: PkDict, x: Instance)
    requires Represents(xs, d)
    ensures OrderedByFirst(xs + [x], Insert(d, x).keys)
  {
    OldKeysKeepFirst(xs, d, x);
    if x.pk !in d.vals {
      FirstIndexNew(xs, x);
      AppendKeepsOrder(xs + [x], d.keys, x.pk);
    }
  }

  lemma AppendKeepsOrder(ys: seq<Instance>, keys: seq<Pk>, p: Pk)
    requires OrderedByFirst(ys, keys)
    requires forall k :: 0 <= k < |keys| ==> 0 <= FirstIndex(ys, keys[k]) < FirstIndex(ys, p)
    ensures OrderedByFirst(ys, keys + [p])
  {
    var ks := keys + [p];
    forall k1, k2 | 0 <= k1 < k2 < |ks|
      ensures 0 <= FirstIndex(ys, ks[k1]) < FirstIndex(ys, ks[k2])
    {
      assert ks[k1] == keys[k1];
      if k2 < |keys| {
        assert ks[k2] == keys[k2];
      }
    }
  }

  /** Every value is the last entry with its key once an entry is inserted. */
  lemma InsertKeepsLast(xs: seq<Instance>, d: PkDict, x: Instance)
    requires Represents(xs, d)
    ensures forall p :: p in Insert(d, x).vals ==>
              0 <= LastIndex(xs + [x], p) && Insert(d, x).vals[p] == (xs + [x])[LastIndex(xs + [x], p)]
  {
    var ys := xs + [x];
    var e := Insert(d, x);
    forall p | p in e.vals
      ensures 0 <= LastIndex(ys, p) && e.vals[p] == ys[LastIndex(ys, p)]
    {
      LastIndexExtend(xs, x, p);
      if p != x.pk {
        assert ys[LastIndex(xs, p)] == xs[LastIndex(xs, p)];
      }
    }
  }

  /** Inserting the last entry turns the dict of the prefix into the dict of the whole. */
  lemma InsertRepresents(xs: seq<Instance>, d: PkDict, x: Instance)
    requires Represents(xs, d)
    ensures Represents(xs + [x], Insert(d, x))
  {
    PksExtend(xs, x);
    InsertKeepsOrder(xs, d, x);
    InsertKeepsLast(xs, d, x);
  }

  lemma InsertLastRepresents(xs: seq<Instance>, d: PkDict)
    requires |xs| > 0 && Represents(xs[..|xs| - 1], d)
    ensures Represents(xs, Insert(d, xs[|xs| - 1]))
  {
    InsertRepresents(xs[..|xs| - 1], d, xs[|xs| - 1]);
    assert xs[..|xs| - 1] + [xs[|xs| - 1]] == xs;
  }

  /**
   The dict `{inst.pk: inst for inst in xs}`: a key is inserted where it first
   occurs and its value overwritten by every later entry with the same key.
   */
  function DictByPk(xs: seq<Instance>): (d: PkDict)
    ensures Represents(xs, d)
  {
    if xs == [] then PkDict([], map[])
    else
      var d := DictByPk(xs[..|xs| - 1]);
      InsertLastRepresents(xs, d);
      Insert(d, xs[|xs| - 1])
  }

  /** `d.values()`: the values in key order. */
  function Values(d: PkDict): (r: seq<Instance>)
    requires forall k :: 0 <= k < |d.keys| ==> d.keys[k] in d.vals
    ensures |r| == |d.keys|
    ensures forall k :: 0 <= k < |r| ==> r[k] == d.vals[d.keys[k]]
  {
    seq(|d.keys|, k requires 0 <= k < |d.keys| => d.vals[d.keys[k]])
  }

  /** `list({inst.pk: inst for inst in xs}.values())`. */
  function UniqueByPk(xs: seq<Instance>): (r: seq<Instance>)
    ensures IsDedupOf(xs, r)
    ensures |r| <= |xs|
  {
    var d := DictByPk(xs);
    KeysHaveValues(xs, d);
    var r := Values(d);
    ValuesAreDedup(xs, d, r);
    r
  }

  /** Every key of a representing dictionary has a value, and there are no more keys than entries. */
  lemma KeysHaveValues(xs: seq<Instance>, d: PkDict)
    requires Represents(xs, d)
    ensures forall k :: 0 <= k < |d.keys| ==> d.keys[k] in d.vals
    ensures |d.keys| <= |xs|
  {
    forall k | 0 <= k < |d.keys|
      ensures d.keys[k] in d.vals
    {
      assert d.keys[k] in d.keys;
    }
  }

  /** Each value stored under a key carries that key. */
  lemma ValuesCarryKeys(xs: seq<Instance>, d: PkDict, r: seq<Instance>)
    requires Represents(xs, d)
    requires |r| == |d.keys|
    requires forall k :: 0 <= k < |r| ==> d.keys[k] in d.vals && r[k] == d.vals[d.keys[k]]
    ensures forall k :: 0 <= k < |r| ==> r[k].pk == d.keys[k]
  {
    forall k | 0 <= k < |r|
      ensures r[k].pk == d.keys[k]
    {
      var p := d.keys[k];
      assert d.vals[p] == xs[LastIndex(xs, p)];
    }
  }

  lemma ValuesAreDedup(xs: seq<Instance>, d: PkDict, r: seq<Instance>)
    requires Represents(xs, d)
    requires |r| == |d.keys|
    requires forall k :: 0 <= k < |r| ==> d.keys[k] in d.vals && r[k] == d.vals[d.keys[k]]
    ensures IsDedupOf(xs, r)
  {
    ValuesCarryKeys(xs, d, r);
    assert Pks(r) == Pks(xs) by {
      forall p | p in Pks(xs)
        ensures p in Pks(r)
      {
        var k :| 0 <= k < |d.keys| && d.keys[k] == p;
        assert r[k].pk == p;
      }
    }
    assert OrderedByFirst(xs, d.keys);
  }

  /** Entries with pairwise distinct primary keys: one key per entry. */
  lemma {:induction false} DistinctPksCount(r: seq<Instance>)
    requires forall k1, k2 :: 0 <= k1 < k2 < |r| ==> r[k1].pk != r[k2].pk
    ensures |Pks(r)| == |r|
  {
    if r != [] {
      DistinctPksCount(r[1..]);
      assert Pks(r) == {r[0].pk} + Pks(r[1..]) by {
        forall p | p in Pks(r)
          ensures p in {r[0].pk} + Pks(r[1..])
        {
          var i :| 0 <= i < |r| && r[i].pk == p;
          if i > 0 {
            assert r[1..][i - 1].pk == p;
          }
        }
      }
      assert r[0].pk !in Pks(r[1..]);
    }
  }

  /** The de-duplicated list holds exactly one instance per distinct primary key. */
  lemma UniqueByPkLength(xs: seq<Instance>)
    ensures |UniqueByPk(xs)| == |Pks(xs)|
  {
    var r := UniqueByPk(xs);
    forall k1, k2 | 0 <= k1 < k2 < |r|
      ensures r[k1].pk != r[k2].pk
    {
      assert FirstIndex(xs, r[k1].pk) < FirstIndex(xs, r[k2].pk);
    }
    DistinctPksCount(r);
  }

  /** Repeated updates of one primary key collapse to the last one recorded. */
  lemma SamePkKeepsLast(xs: seq<Instance>)
    requires |xs| > 0
    requires forall i :: 0 <= i < |xs| ==> xs[i].pk == xs[0].pk
    ensures UniqueByPk(xs) == [xs[|xs| - 1]]
  {
    var r := UniqueByPk(xs);
    var p := xs[0].pk;
    assert Pks(xs) == {p};
    UniqueByPkLength(xs);
    assert r[0].pk in Pks(xs);
    assert LastIndex(xs, p) == |xs| - 1;
  }
}
