/**
 What the watcher promises across several operations: the guard holds while a
 model is watched and is undone exactly by unwatching, each event lands in
 exactly one list of a tidy watcher, lists capture events in arrival order,
 and cleaning does not stop the capture.
 */
module WatcherProperties {
  import opened Outcomes
  import opened ChangeRegistry
  import opened BypassGuard
  import opened Signals
  import opened ModelWatcher
  import opened WatcherInvariants

  // ---------------------------------------------------------------- the guard

  /** While a model is watched, calling a guarded method on any of its managers raises `NotImplementedError`. */
  lemma BlockedWhileWatched(s: Sys, m: Model, n: ManagerName, meth: Method)
    requires Valid(s) && m in WatchedSet(s) && n in ManagersOf(s.env, m)
    ensures Invoke(ManagersOf(s.env, m)[n].Get(meth)) == Raised(NotImplemented)
  {
  }

  /**
   The managers of every model can be brought back to `orig`: an unwatched
   model's managers are the original ones, and a watched model's record
   restores them.
   */
  ghost predicate Restorable(s: Sys, orig: map<Model, Managers>)
  {
    && s.env.managers.Keys == orig.Keys
    && (forall m :: m in orig && m !in WatchedSet(s) ==> s.env.managers[m] == orig[m])
    && (forall m :: m in orig && m in WatchedSet(s) ==> Unmock(s.env.managers[m], RecordOf(s.watcher, m)) == orig[m])
  }

  lemma InitRestorable(managers: map<Model, Managers>)
    ensures Restorable(Init(managers), managers)
  {
  }

  lemma SetWatcherKeepsRestorable(s: Sys, m: Model, orig: map<Model, Managers>)
    requires Restorable(s, orig)
    ensures Restorable(SetWatcher(s, m), orig)
  {
    if m !in WatchedSet(s) {
      var r := SetWatcher(s, m);
      SetWatcherChangesOnly(s, m);
      if m in orig {
        MockThenUnmock(orig[m]);
      }
    }
  }

  /** Watching `m` guards the managers of `m`, records them, and leaves every other model's managers and record alone. */
  lemma SetWatcherChangesOnly(s: Sys, m: Model)
    requires m !in WatchedSet(s)
    ensures var r := SetWatcher(s, m);
      && r.env.managers.Keys == s.env.managers.Keys
      && (m in s.env.managers ==> r.env.managers[m] == Mock(s.env.managers[m]).0)
      && RecordOf(r.watcher, m) == Mock(ManagersOf(s.env, m)).1
      && (forall o :: o in s.env.managers && o != m ==> r.env.managers[o] == s.env.managers[o])
      && (forall o :: o != m ==> RecordOf(r.watcher, o) == RecordOf(s.watcher, o))
  {
  }

  lemma UnsetBulkKeepsRestorable(s: Sys, t: set<Model>, orig: map<Model, Managers>)
    requires Restorable(s, orig) && t <= WatchedSet(s)
    ensures Restorable(UnsetBulk(s, t), orig)
  {
    var r := UnsetBulk(s, t);
    forall o | o in orig
      ensures ManagersOf(r.env, o) == r.env.managers[o] && ManagersOf(s.env, o) == s.env.managers[o]
    {
    }
    forall o | o in orig && o !in t
      ensures RecordOf(r.watcher, o) == RecordOf(s.watcher, o)
    {
    }
  }

  /** Events and cleaning leave Django's managers and the guard record alone. */
  lemma RunAndCleanKeepRestorable(s: Sys, es: seq<Event>, cleaned: seq<Model>, orig: map<Model, Managers>)
    requires HooksTracked(s) && Restorable(s, orig)
    ensures Restorable(Run(s, es), orig)
    ensures Restorable(CleanWatchers(Run(s, es), cleaned), orig)
  {
    var r := Run(s, es);
    assert WatchedSet(r) == WatchedSet(s) && RecordOf(r.watcher, 0) == RecordOf(s.watcher, 0);
    assert forall m :: RecordOf(r.watcher, m) == RecordOf(s.watcher, m);
    var c := CleanWatchers(r, cleaned);
    assert WatchedSet(c) == WatchedSet(r);
    assert forall m :: RecordOf(c.watcher, m) == RecordOf(r.watcher, m);
  }

  /** Unwatching, as written or as intended, keeps every model's managers restorable. */
  lemma UnsetKeepsRestorable(s: Sys, models: seq<Model>, orig: map<Model, Managers>)
    requires HooksOnly(s) && Restorable(s, orig)
    ensures UnsetWatchers(s, models).Ok? ==> Restorable(UnsetWatchers(s, models).value, orig)
    ensures UnsetWatchersIntended(s, models).Ok? ==> Restorable(UnsetWatchersIntended(s, models).value, orig)
  {
    if s.watcher.watched.Some? {
      var t := UnsetTargets(s, models);
      UnsetBulkKeepsRestorable(s, t, orig);
      assert UnsetWatchers(s, models) == Ok(UnsetBulk(s, t));
      assert UnsetWatchersIntended(s, models).value.env.managers == UnsetBulk(s, t).env.managers;
      assert UnsetWatchersIntended(s, models).value.watcher == UnsetBulk(s, t).watcher;
    }
  }

  /**
   `unset_watchers()` without arguments unwatches every model and puts every
   manager method back exactly as it was before the model was first watched.
   */
  lemma UnsetAllRestores(s: Sys, orig: map<Model, Managers>)
    requires Valid(s) && Restorable(s, orig) && s.watcher.watched.Some?
    ensures UnsetWatchers(s, []).Ok?
    ensures UnsetWatchers(s, []).value.env.managers == orig
    ensures UnsetWatchers(s, []).value.watcher.watched == Some({})
    ensures UnsetWatchers(s, []).value.watcher.mocked == map[]
  {
    ValidHooksOnly(s);
    var t := UnsetTargets(s, []);
    assert t == WatchedSet(s);
    var r := UnsetBulk(s, t);
    assert UnsetWatchers(s, []) == Ok(r);
    UnsetBulkKeepsRestorable(s, t, orig);
    assert WatchedSet(r) == {};
    assert forall m :: m in orig ==> r.env.managers[m] == orig[m];
    assert r.watcher.mocked.Keys == {};
  }

  /** Watching each model of a list in turn. */
  function WatchAll(s: Sys, ms: seq<Model>): (r: Sys)
    ensures forall m :: m in WatchedSet(r) <==> m in WatchedSet(s) || m in ms
    ensures |ms| > 0 ==> r.watcher.watched.Some?
    ensures s.watcher.watched.Some? ==> r.watcher.watched.Some?
    decreases |ms|
  {
    if ms == [] then s else WatchAll(SetWatcher(s, ms[0]), ms[1..])
  }

  lemma {:induction false} WatchAllKeepsInvariants(s: Sys, ms: seq<Model>, orig: map<Model, Managers>)
    requires Tidy(s) && Restorable(s, orig)
    ensures Tidy(WatchAll(s, ms)) && Restorable(WatchAll(s, ms), orig)
    decreases |ms|
  {
    if ms != [] {
      SetWatcherKeepsTidy(s, ms[0]);
      SetWatcherKeepsRestorable(s, ms[0], orig);
      WatchAllKeepsInvariants(SetWatcher(s, ms[0]), ms[1..], orig);
    }
  }

  /**
   A whole test session: watch some models, let the code under test save and
   delete, clean the lists, and unwatch everything. Django's managers end up
   exactly as they started, and nothing is watched or recorded any more.
   */
  lemma WatchSessionRestoresManagers(
    managers: map<Model, Managers>, ms: seq<Model>, es: seq<Event>, cleaned: seq<Model>)
    requires |ms| > 0
    ensures Tidy(WatchAll(Init(managers), ms))
    ensures var s := Run(WatchAll(Init(managers), ms), es);
      && UnsetWatchers(CleanWatchers(s, cleaned), []).Ok?
      && UnsetWatchers(CleanWatchers(s, cleaned), []).value.env.managers == managers
      && UnsetWatchers(CleanWatchers(s, cleaned), []).value.watcher.mocked == map[]
  {
    InitTidy(managers);
    InitRestorable(managers);
    var w := WatchAll(Init(managers), ms);
    WatchAllKeepsInvariants(Init(managers), ms, managers);
    var s := Run(w, es);
    RunKeepsTidy(w, es);
    RunAndCleanKeepRestorable(w, es, cleaned, managers);
    var c := CleanWatchers(s, cleaned);
    CleanKeepsValid(s, cleaned);
    UnsetAllRestores(c, managers);
  }

  // ------------------------------------------------------------------ routing

  /** The list an event is meant for: `created` for a new save, `updated` for another save, `deleted` for a delete. */
  function EventKind(e: Event): Kind
  {
    match e
    case SaveEvent(_, _, isNew) => if isNew then Created else Updated
    case DeleteEvent(_, _) => Deleted
  }

  /** In a tidy state a model has one live receiver per signal when watched and none otherwise. */
  lemma TidyLiveCounts(s: Sys, m: Model)
    requires Tidy(s)
    ensures LiveCount(s.env.postSave, m) == (if m in WatchedSet(s) then 1 else 0)
    ensures LiveCount(s.env.postDelete, m) == (if m in WatchedSet(s) then 1 else 0)
  {
    OnePerModelCount(s.env.postSave, WatchedSet(s), m);
    OnePerModelCount(s.env.postDelete, WatchedSet(s), m);
  }

  /** Appending once appends the one instance to one list; appending zero times changes nothing. */
  lemma AppendOnceOrNever(w: Watcher, k: Kind, m: Model, x: Instance, n: nat)
    requires n <= 1 && (n == 1 ==> m in ListsOf(w, k))
    ensures n == 0 ==> AppendN(w, k, m, x, n) == w
    ensures n == 1 ==> ListsOf(AppendN(w, k, m, x, n), k) == ListsOf(w, k)[m := ListsOf(w, k)[m] + [x]]
    ensures forall other :: other != k ==> ListsOf(AppendN(w, k, m, x, n), other) == ListsOf(w, other)
  {
    if n == 0 {
      WatcherExt(AppendN(w, k, m, x, n), w);
    } else {
      assert Repeat(x, 1) == [x];
    }
  }

  /** What a tidy state guarantees about one model's receivers and lists. */
  lemma TidyModel(s: Sys, m: Model)
    requires Tidy(s)
    ensures LiveCount(s.env.postSave, m) == (if m in WatchedSet(s) then 1 else 0)
    ensures LiveCount(s.env.postDelete, m) == (if m in WatchedSet(s) then 1 else 0)
    ensures m in WatchedSet(s) ==> forall k :: m in ListsOf(s.watcher, k)
    ensures HooksTracked(s)
  {
    TidyLiveCounts(s, m);
    if m in WatchedSet(s) {
      WatchedHaveLists(s, m);
    }
  }

  /** A watched model of a valid state has all three lists. */
  lemma WatchedHaveLists(s: Sys, m: Model)
    requires Valid(s) && m in WatchedSet(s)
    ensures forall k :: m in ListsOf(s.watcher, k)
  {
    assert m in s.watcher.created;
    forall k
      ensures m in ListsOf(s.watcher, k)
    {
    }
  }

  /**
   In a tidy state a save of a watched model appends its instance exactly once,
   to `created` when it is new and to `updated` otherwise, and touches no other
   list; a save of an unwatched model changes nothing.
   */
  lemma SaveRoutesOnce(s: Sys, m: Model, x: Instance, isNew: bool)
    requires Tidy(s)
    ensures HooksTracked(s)
    ensures var r := Save(s, m, x, isNew); var k := if isNew then Created else Updated;
      && (m in WatchedSet(s) ==> ListsOf(r.watcher, k) == ListsOf(s.watcher, k)[m := ListsOf(s.watcher, k)[m] + [x]])
      && (forall other :: other != k ==> ListsOf(r.watcher, other) == ListsOf(s.watcher, other))
      && (m !in WatchedSet(s) ==> r == s)
  {
    TidyModel(s, m);
    AppendOnceOrNever(s.watcher, if isNew then Created else Updated, m, x, LiveCount(s.env.postSave, m));
  }

  /**
   In a tidy state a delete of a watched model appends its instance exactly
   once, to `deleted`, and touches no other list; a delete of an unwatched
   model changes nothing.
   */
  lemma DeleteRoutesOnce(s: Sys, m: Model, x: Instance)
    requires Tidy(s)
    ensures HooksTracked(s)
    ensures var r := Delete(s, m, x);
      && (m in WatchedSet(s) ==> r.watcher.deleted == s.watcher.deleted[m := s.watcher.deleted[m] + [x]])
      && (forall other :: other != Deleted ==> ListsOf(r.watcher, other) == ListsOf(s.watcher, other))
      && (m !in WatchedSet(s) ==> r == s)
  {
    TidyModel(s, m);
    AppendOnceOrNever(s.watcher, Deleted, m, x, LiveCount(s.env.postDelete, m));
  }

  /**
   `r` is `s` with the instance of `e` appended once to the list of its model
   meant for it, when that model is watched, and is `s` itself otherwise.
   */
  ghost predicate RoutedOnce(s: Sys, e: Event, r: Sys)
  {
    var k := EventKind(e);
    && (e.model in WatchedSet(s) ==>
          e.model in ListsOf(s.watcher, k) &&
          ListsOf(r.watcher, k) == ListsOf(s.watcher, k)[e.model := ListsOf(s.watcher, k)[e.model] + [e.instance]])
    && (forall other :: other != k ==> ListsOf(r.watcher, other) == ListsOf(s.watcher, other))
    && (e.model !in WatchedSet(s) ==> r == s)
  }

  /** Every event of a tidy state lands once in the list it is meant for, and nowhere else. */
  lemma StepRoutesOnce(s: Sys, e: Event)
    requires Tidy(s)
    ensures RoutedOnce(s, e, Step(s, e))
  {
    TidyModel(s, e.model);
    match e
    case SaveEvent(m, x, isNew) => SaveRoutesOnce(s, m, x, isNew);
    case DeleteEvent(m, x) => DeleteRoutesOnce(s, m, x);
  }

  /** The instances of the events of `m` meant for list `k`, in arrival order. */
  function Captured(es: seq<Event>, m: Model, k: Kind): seq<Instance>
  {
    if es == [] then []
    else (if es[0].model == m && EventKind(es[0]) == k then [es[0].instance] else []) + Captured(es[1..], m, k)
  }

  /** Every event of the run, applied in turn, is routed once. */
  ghost predicate RoutesAll(s: Sys, es: seq<Event>)
    requires HooksTracked(s)
    decreases |es|
  {
    es == [] || (RoutedOnce(s, es[0], Step(s, es[0])) && RoutesAll(Step(s, es[0]), es[1..]))
  }

  lemma {:induction false} TidyRoutesAll(s: Sys, es: seq<Event>)
    requires Tidy(s)
    ensures RoutesAll(s, es)
    decreases |es|
  {
    if es != [] {
      StepRoutesOnce(s, es[0]);
      StepKeepsTidy(s, es[0]);
      TidyRoutesAll(Step(s, es[0]), es[1..]);
    }
  }

  lemma {:induction false} RoutedRunCaptures(s: Sys, es: seq<Event>, m: Model, k: Kind)
    requires HooksTracked(s) && RoutesAll(s, es) && m in ListsOf(s.watcher, k)
    ensures m in ListsOf(Run(s, es).watcher, k)
    ensures ListsOf(Run(s, es).watcher, k)[m] ==
              ListsOf(s.watcher, k)[m] + (if m in WatchedSet(s) then Captured(es, m, k) else [])
    decreases |es|
  {
    if es == [] {
      assert Run(s, es) == s;
      assert Captured(es, m, k) == [];
      assert ListsOf(s.watcher, k)[m] + [] == ListsOf(s.watcher, k)[m];
    } else {
      var s1 := Step(s, es[0]);
      assert Run(s, es) == Run(s1, es[1..]);
      var head := StepCaptures(s, es[0], s1, m, k);
      RoutedRunCaptures(s1, es[1..], m, k);
      assert WatchedSet(s1) == WatchedSet(s);
      assert Captured(es, m, k) == head + Captured(es[1..], m, k);
      CaptureCons(ListsOf(s.watcher, k)[m], ListsOf(s1.watcher, k)[m], ListsOf(Run(s, es).watcher, k)[m],
                  head, Captured(es[1..], m, k), m in WatchedSet(s));
    }
  }

  /** Growing by a head and then by the rest is growing by both. */
  lemma CaptureCons(l0: seq<Instance>, l1: seq<Instance>, l2: seq<Instance>,
                    head: seq<Instance>, rest: seq<Instance>, watched: bool)
    requires l1 == l0 + (if watched then head else [])
    requires l2 == l1 + (if watched then rest else [])
    ensures l2 == l0 + (if watched then head + rest else [])
  {
    if watched {
      assert (l0 + head) + rest == l0 + (head + rest);
    } else {
      assert l2 == l0 + [];
    }
  }

  /**
   Over a run of events, the `k` list of a watched model grows by exactly the
   instances of its events meant for `k`, in arrival order; the lists of an
   unwatched model do not change.
   */
  lemma RunCapturesInOrder(s: Sys, es: seq<Event>, m: Model, k: Kind)
    requires Tidy(s) && m in ListsOf(s.watcher, k)
    ensures m in ListsOf(Run(s, es).watcher, k)
    ensures ListsOf(Run(s, es).watcher, k)[m] ==
              ListsOf(s.watcher, k)[m] + (if m in WatchedSet(s) then Captured(es, m, k) else [])
  {
    TidyRoutesAll(s, es);
    RoutedRunCaptures(s, es, m, k);
  }

  /** One routed step as a capture: the `k` list of a watched `m` grows by the instance when the event is meant for it. */
  lemma StepCaptures(s: Sys, e: Event, r: Sys, m: Model, k: Kind) returns (head: seq<Instance>)
    requires RoutedOnce(s, e, r) && m in ListsOf(s.watcher, k)
    ensures head == if e.model == m && EventKind(e) == k then [e.instance] else []
    ensures m in ListsOf(r.watcher, k)
    ensures ListsOf(r.watcher, k)[m] == ListsOf(s.watcher, k)[m] + (if m in WatchedSet(s) then head else [])
  {
    head := if e.model == m && EventKind(e) == k then [e.instance] else [];
  }

  /** After `clean_watchers`, a watched model still captures: a save lands in its list, which then holds only that save if the model was cleaned. */
  lemma CleanKeepsCapturing(s: Sys, models: seq<Model>, m: Model, x: Instance, isNew: bool)
    requires Tidy(s) && m in WatchedSet(s)
    ensures var c := CleanWatchers(s, models); var k := if isNew then Created else Updated;
      && Tidy(c)
      && ListsOf(Step(c, SaveEvent(m, x, isNew)).watcher, k)[m] ==
           (if |models| == 0 || m in models then [x] else ListsOf(s.watcher, k)[m] + [x])
  {
    var c := CleanWatchers(s, models);
    CleanKeepsTidy(s, models);
    StepRoutesOnce(c, SaveEvent(m, x, isNew));
  }
}
