/**
 The change registry: per model, the ordered lists of instances captured by the
 `created`, `updated` and `deleted` dictionaries, and sums of their lengths.
 */
module ChangeRegistry {

  /** A Django model class, as an opaque identity. */
  type Model = nat

  /** A primary-key value. */
  type Pk = int

  /** A model instance: an opaque object identity and the primary key it carries. */
  datatype Instance = Instance(ref: nat, pk: Pk)

  /** Which of the three dictionaries a change goes to. */
  datatype Kind = Created | Updated | Deleted

  /** One of the three dictionaries: model to captured instances, in arrival order. */
  type Lists = map<Model, seq<Instance>>

  /** `k` copies of `x`. */
  function Repeat(x: Instance, k: nat): (r: seq<Instance>)
    ensures |r| == k
    ensures forall i :: 0 <= i < k ==> r[i] == x
  {
    if k == 0 then [] else [x] + Repeat(x, k - 1)
  }

  /** The lists after `k` receivers have each appended `x` to the list of `m`. */
  function Extend(lists: Lists, m: Model, x: Instance, k: nat): Lists
    requires k > 0 ==> m in lists
  {
    if k == 0 then lists else lists[m := lists[m] + Repeat(x, k)]
  }

  /** Every model of `ms` given an empty list, created if missing; the others kept. */
  function ResetLists(lists: Lists, ms: set<Model>): (r: Lists)
    ensures r.Keys == lists.Keys + ms
    ensures forall m :: m in ms ==> r[m] == []
    ensures forall m :: m in lists && m !in ms ==> r[m] == lists[m]
  {
    map m | m in lists.Keys + ms :: if m in ms then [] else lists[m]
  }

  /** The models named in a sequence, as a set. */
  function Elements(ms: seq<Model>): (r: set<Model>)
    ensures forall m :: m in r <==> m in ms
  {
    set m | m in ms
  }

  /** Total length of the lists of the models in `ms` (a sum over a set, in no particular order). */
  ghost function SumLens(lists: Lists, ms: set<Model>): nat
    requires ms <= lists.Keys
    decreases ms
  {
    if ms == {} then 0
    else
      var m :| m in ms;
      |lists[m]| + SumLens(lists, ms - {m})
  }

  /** Any model of the set can be taken out first: the sum does not depend on the order. */
  lemma {:induction false} SumLensPick(lists: Lists, ms: set<Model>, x: Model)
    requires ms <= lists.Keys && x in ms
    ensures SumLens(lists, ms) == |lists[x]| + SumLens(lists, ms - {x})
    decreases ms
  {
    var y :| y in ms && SumLens(lists, ms) == |lists[y]| + SumLens(lists, ms - {y});
    if y != x {
      SumLensPick(lists, ms - {y}, x);
      SumLensPick(lists, ms - {x}, y);
      assert ms - {y} - {x} == ms - {x} - {y};
    }
  }

  /** The sum over a set splits over any part of it and the rest. */
  lemma {:induction false} SumLensSplit(lists: Lists, ms: set<Model>, part: set<Model>)
    requires ms <= lists.Keys && part <= ms
    ensures SumLens(lists, ms) == SumLens(lists, part) + SumLens(lists, ms - part)
    decreases part
  {
    if part == {} {
      assert ms - part == ms;
    } else {
      var x :| x in part;
      SumLensPick(lists, ms, x);
      SumLensPick(lists, part, x);
      SumLensSplit(lists, ms - {x}, part - {x});
      assert (ms - {x}) - (part - {x}) == ms - part;
    }
  }

  /** The sum is zero exactly when every list it covers is empty. */
  lemma {:induction false} SumLensZero(lists: Lists, ms: set<Model>)
    requires ms <= lists.Keys
    ensures SumLens(lists, ms) == 0 <==> forall m :: m in ms ==> lists[m] == []
    decreases ms
  {
    if ms != {} {
      var x :| x in ms;
      SumLensPick(lists, ms, x);
      SumLensZero(lists, ms - {x});
    }
  }

  /** Total length of the lists of the models of a sequence, each occurrence counted. */
  function SumListed(lists: Lists, ms: seq<Model>): nat
    requires forall i :: 0 <= i < |ms| ==> ms[i] in lists
  {
    if ms == [] then 0 else |lists[ms[0]]| + SumListed(lists, ms[1..])
  }

  /** Over a sequence without repeats, the ordered sum equals the sum over its set. */
  lemma {:induction false} SumListedDistinct(lists: Lists, ms: seq<Model>)
    requires forall i :: 0 <= i < |ms| ==> ms[i] in lists
    requires forall i, j :: 0 <= i < j < |ms| ==> ms[i] != ms[j]
    ensures SumListed(lists, ms) == SumLens(lists, Elements(ms))
  {
    if ms != [] {
      SumLensPick(lists, Elements(ms), ms[0]);
      SumListedDistinct(lists, ms[1..]);
      assert Elements(ms) - {ms[0]} == Elements(ms[1..]) by {
        forall m | m in Elements(ms) - {ms[0]}
          ensures m in Elements(ms[1..])
        {
          var i :| 0 <= i < |ms| && ms[i] == m;
          assert ms[1..][i - 1] == m;
        }
      }
    }
  }
}
