/**
 The read side of the watcher: `created_count`, `updated_count` and
 `deleted_count` with their `selected_models` / `exclude` filter, and
 `updated_unique`.
 */
module Queries {
  import opened Outcomes
  import opened ChangeRegistry
  import opened Dedupe
  import opened ModelWatcher

  /** A filter argument of a count: left out (`None`), one model class, or a list of models. */
  datatype Selector = Absent | Single(model: Model) | Listed(models: seq<Model>)

  /** Python truthiness of a filter argument: a class is true, a list when it is not empty. */
  predicate Given(sel: Selector)
  {
    match sel
    case Absent => false
    case Single(_) => true
    case Listed(ms) => |ms| > 0
  }

  /** What a count sums over: a set of models (each once) or a list of models (each occurrence). */
  datatype Target = AllOf(models: set<Model>) | EachOf(listed: seq<Model>)

  /**
   `_get_filtered_models`, together with the iteration the count performs on
   its result. Both filters set fail the assertion. A non-empty exclusion runs
   over the watched models, so it raises `TypeError` before anything is
   watched, and also when the exclusion is a single class that has to be
   searched (a class is not a container). Without an exclusion, a class
   becomes a one-element list, a list is used as given, and no filter means
   every watched model.
   */
  function ResolveFilter(watched: Option<set<Model>>, selected: Selector, exclude: Selector): (r: Result<Target>)
    ensures Given(selected) && Given(exclude) ==> r == Err(AssertionFailed)
    ensures r.Err? && r.error == TypeError <==>
              !(Given(selected) && Given(exclude)) &&
              ((watched.None? && (Given(exclude) || selected.Absent?)) ||
               (exclude.Single? && watched.Some? && watched.value != {}))
    ensures r.Ok? && Given(exclude) ==> r.value.AllOf? && r.value.models <= watched.value
    ensures r.Ok? && Given(exclude) && exclude.Listed? ==>
              forall m :: m in r.value.models <==> m in watched.value && m !in exclude.models
    ensures r.Ok? && !Given(exclude) ==>
              match selected
              case Absent => r.value == AllOf(watched.value)
              case Single(m) => r.value == EachOf([m])
              case Listed(ms) => r.value == EachOf(ms)
  {
    if Given(selected) && Given(exclude) then Err(AssertionFailed)
    else if exclude.Single? then
      if watched.None? then Err(TypeError)
      else if watched.value == {} then Ok(AllOf({}))
      else Err(TypeError)
    else if Given(exclude) then
      if watched.None? then Err(TypeError)
      else Ok(AllOf(watched.value - Elements(exclude.models)))
    else if selected.Single? then Ok(EachOf([selected.model]))
    else if selected.Listed? then Ok(EachOf(selected.models))
    else if watched.None? then Err(TypeError)
    else Ok(AllOf(watched.value))
  }

  /** Whether every model the target names has a list (otherwise the lookup raises `KeyError`). */
  predicate Covers(lists: Lists, t: Target)
  {
    match t
    case AllOf(ms) => ms <= lists.Keys
    case EachOf(ms) => forall i :: 0 <= i < |ms| ==> ms[i] in lists
  }

  /** The sum of the list lengths over the target. */
  ghost function SumOver(lists: Lists, t: Target): nat
    requires Covers(lists, t)
  {
    match t
    case AllOf(ms) => SumLens(lists, ms)
    case EachOf(ms) => SumListed(lists, ms)
  }

  /** `created_count`, `updated_count` or `deleted_count`, chosen by `k`. */
  ghost function Count(s: Sys, k: Kind, selected: Selector, exclude: Selector): (r: Result<nat>)
    ensures Given(selected) && Given(exclude) ==> r == Err(AssertionFailed)
    ensures r.Ok? <==>
              ResolveFilter(s.watcher.watched, selected, exclude).Ok? &&
              Covers(ListsOf(s.watcher, k), ResolveFilter(s.watcher.watched, selected, exclude).value)
    ensures r.Err? && ResolveFilter(s.watcher.watched, selected, exclude).Ok? ==> r.error == KeyError
    ensures ResolveFilter(s.watcher.watched, selected, exclude).Err? ==>
              r == Err(ResolveFilter(s.watcher.watched, selected, exclude).error)
    ensures r.Ok? ==> r.value == SumOver(ListsOf(s.watcher, k), ResolveFilter(s.watcher.watched, selected, exclude).value)
  {
    match ResolveFilter(s.watcher.watched, selected, exclude)
    case Err(e) => Err(e)
    case Ok(t) => if Covers(ListsOf(s.watcher, k), t) then Ok(SumOver(ListsOf(s.watcher, k), t)) else Err(KeyError)
  }

  /** Before the first `set_watcher` there is nothing to count over. */
  lemma CountBeforeWatching(s: Sys, k: Kind, selected: Selector, exclude: Selector)
    requires s.watcher.watched.None?
    requires !(Given(selected) && Given(exclude))
    requires selected.Absent? || Given(exclude)
    ensures Count(s, k, selected, exclude) == Err(TypeError)
  {
  }

  /** Unfiltered, a count in a valid state adds up every watched list, and is zero exactly when all are empty. */
  lemma CountAllWatched(s: Sys, k: Kind)
    requires ListsAligned(s) && s.watcher.watched.Some?
    ensures WatchedSet(s) <= ListsOf(s.watcher, k).Keys
    ensures Count(s, k, Absent, Absent) == Ok(SumLens(ListsOf(s.watcher, k), WatchedSet(s)))
    ensures Count(s, k, Absent, Absent) == Ok(0) <==>
              forall m :: m in WatchedSet(s) ==> ListsOf(s.watcher, k)[m] == []
  {
    SumLensZero(ListsOf(s.watcher, k), WatchedSet(s));
  }

  /** An exclusion list and the models it excludes together make up the unfiltered count. */
  lemma CountExcludeComplements(s: Sys, k: Kind, selected: Selector, excluded: seq<Model>)
    requires ListsAligned(s) && s.watcher.watched.Some?
    requires |excluded| > 0 && !Given(selected)
    ensures Count(s, k, selected, Listed(excluded)).Ok?
    ensures Count(s, k, Absent, Absent).Ok?
    ensures Count(s, k, Absent, Absent).value ==
              Count(s, k, selected, Listed(excluded)).value +
              SumLens(ListsOf(s.watcher, k), WatchedSet(s) * Elements(excluded))
  {
    var lists := ListsOf(s.watcher, k);
    var w := WatchedSet(s);
    assert w <= lists.Keys;
    var part := w * Elements(excluded);
    SumLensSplit(lists, w, part);
    assert w - part == w - Elements(excluded);
    assert ResolveFilter(s.watcher.watched, selected, Listed(excluded)) == Ok(AllOf(w - part));
  }

  /** A single class counts as the one-element list holding it. */
  lemma CountSingleAsList(s: Sys, k: Kind, m: Model)
    ensures Count(s, k, Single(m), Absent) == Count(s, k, Listed([m]), Absent)
    ensures Count(s, k, Single(m), Absent) ==
              if m in ListsOf(s.watcher, k) then Ok(|ListsOf(s.watcher, k)[m]|) else Err(KeyError)
  {
    var lists := ListsOf(s.watcher, k);
    if m in lists {
      assert [m][1..] == [];
      assert SumListed(lists, [m]) == |lists[m]| + SumListed(lists, []);
    }
  }

  /** A list without repetitions counts each of its models once, exactly like the set of them. */
  lemma CountDistinctList(s: Sys, k: Kind, ms: seq<Model>)
    requires forall i :: 0 <= i < |ms| ==> ms[i] in ListsOf(s.watcher, k)
    requires forall i, j :: 0 <= i < j < |ms| ==> ms[i] != ms[j]
    ensures Count(s, k, Listed(ms), Absent) == Ok(SumLens(ListsOf(s.watcher, k), Elements(ms)))
  {
    SumListedDistinct(ListsOf(s.watcher, k), ms);
  }

  /** After `clean_watchers()` every count of a valid state is zero. */
  lemma CountAfterCleanAll(s: Sys, k: Kind)
    requires ListsAligned(s) && s.watcher.watched.Some?
    ensures Count(CleanWatchers(s, []), k, Absent, Absent) == Ok(0)
  {
    var r := CleanWatchers(s, []);
    assert ListsOf(r.watcher, k).Keys == ListsOf(s.watcher, k).Keys + Elements([]);
    SumLensZero(ListsOf(r.watcher, k), WatchedSet(r));
  }

  /**
   `updated_unique(model)`: the instances updated for `model`, one per primary
   key, each the last one recorded with that key, in the order the keys first
   appeared; a model without a list raises `KeyError`.
   */
  function UpdatedUnique(s: Sys, m: Model): (r: Result<seq<Instance>>)
    ensures r.Err? <==> m !in s.watcher.updated
    ensures r.Err? ==> r.error == KeyError
    ensures r.Ok? ==> IsDedupOf(s.watcher.updated[m], r.value)
    ensures r.Ok? ==> |r.value| == |Pks(s.watcher.updated[m])| <= |s.watcher.updated[m]|
  {
    if m in s.watcher.updated then
      UniqueByPkLength(s.watcher.updated[m]);
      Ok(UniqueByPk(s.watcher.updated[m]))
    else Err(KeyError)
  }
}
