/**
 Watching and then unwatching one model. `unset_watchers` asks both signals to
 disconnect the model class as a receiver, while the connections were made with
 the closures as receivers and the model as sender; the call removes nothing.
 The lemmas below show what follows (the guard is undone but the closures keep
 capturing, and watching again captures every event twice) and that the
 intended unwatch, which drops the closures, restores everything.
 */
module UnwatchRoundTrip {
  import opened Outcomes
  import opened ChangeRegistry
  import opened BypassGuard
  import opened Signals
  import opened ModelWatcher
  import opened WatcherInvariants
  import opened WatcherProperties

  /** The two connections `set_watcher(m)` makes. */
  function SaveHookOf(m: Model): Connection { Connection(SaveHook(m), ModelClass(m)) }
  function DeleteHookOf(m: Model): Connection { Connection(DeleteHook(m), ModelClass(m)) }

  /** Worlds whose managers agree model by model are the same managers map. */
  lemma ManagersMapExt(a: Env, b: Env)
    requires a.managers.Keys == b.managers.Keys
    requires forall o :: ManagersOf(a, o) == ManagersOf(b, o)
    ensures a.managers == b.managers
  {
    forall o | o in a.managers
      ensures a.managers[o] == b.managers[o]
    {
      assert ManagersOf(a, o) == ManagersOf(b, o);
    }
  }

  /** Unwatching a model just watched gives back its managers and leaves every other model's alone. */
  lemma WatchThenUnwatchManagers(s: Sys, m: Model)
    requires m !in WatchedSet(s)
    ensures UnsetBulk(SetWatcher(s, m), {m}).env.managers == s.env.managers
  {
    var w := SetWatcher(s, m);
    SetWatcherGuards(s, m);
    var b := UnsetBulk(w, {m});
    assert RecordOf(w.watcher, m) == Mock(ManagersOf(s.env, m)).1;
    forall o
      ensures ManagersOf(b.env, o) == ManagersOf(s.env, o)
    {
      if o == m {
        MockThenUnmock(ManagersOf(s.env, m));
      }
    }
    ManagersMapExt(b.env, s.env);
  }

  /** `set_watcher(m)` followed by unwatching `m` in bulk undoes the guard and the watched set but keeps the new connections. */
  lemma WatchThenUnwatchBulk(s: Sys, m: Model)
    requires m !in WatchedSet(s) && m !in s.watcher.mocked
    ensures UnsetTargets(SetWatcher(s, m), [m]) == {m}
    ensures var b := UnsetBulk(SetWatcher(s, m), {m});
      && b.env.managers == s.env.managers
      && b.watcher.mocked == s.watcher.mocked
      && WatchedSet(b) == WatchedSet(s)
      && b.env.postSave == s.env.postSave + [SaveHookOf(m)]
      && b.env.postDelete == s.env.postDelete + [DeleteHookOf(m)]
      && (forall k :: ListsOf(b.watcher, k) == ListsOf(s.watcher, k)[m := []])
  {
    var w := SetWatcher(s, m);
    assert UnsetTargets(w, [m]) == {m};
    WatchThenUnwatchManagers(s, m);
    SetWatcherGuards(s, m);
    var b := UnsetBulk(w, {m});
    assert b.watcher.mocked == s.watcher.mocked;
    assert WatchedSet(b) == WatchedSet(s);
  }

  /** The watcher's closures stay the only receivers when a model is watched. */
  lemma SetWatcherKeepsHooksOnly(s: Sys, m: Model)
    requires HooksOnly(s)
    ensures HooksOnly(SetWatcher(s, m))
  {
    var w := SetWatcher(s, m);
    if m !in WatchedSet(s) {
      forall i | 0 <= i < |w.env.postSave|
        ensures IsHook(w.env.postSave[i].receiver)
      {
        if i < |s.env.postSave| {
          assert w.env.postSave[i] == s.env.postSave[i];
        }
      }
      forall i | 0 <= i < |w.env.postDelete|
        ensures IsHook(w.env.postDelete[i].receiver)
      {
        if i < |s.env.postDelete| {
          assert w.env.postDelete[i] == s.env.postDelete[i];
        }
      }
    }
  }

  /** `unset_watchers(m)` right after `set_watcher(m)` is the bulk unwatch of `m`. */
  lemma WatchThenUnwatchIsBulk(s: Sys, m: Model)
    requires Valid(s) && m !in WatchedSet(s)
    ensures m !in s.watcher.mocked
    ensures UnsetWatchers(SetWatcher(s, m), [m]) == Ok(UnsetBulk(SetWatcher(s, m), {m}))
  {
    ValidHooksOnly(s);
    SetWatcherKeepsHooksOnly(s, m);
    WatchThenUnwatchBulk(s, m);
  }

  /**
   As written: after `set_watcher(m)` and `unset_watchers(m)` the managers,
   the watched set and the record are back, but both closures are still
   connected, so the state is no longer tidy.
   */
  lemma UnwatchLeavesReceivers(s: Sys, m: Model)
    requires Tidy(s) && m !in WatchedSet(s)
    ensures UnsetWatchers(SetWatcher(s, m), [m]).Ok?
    ensures var r := UnsetWatchers(SetWatcher(s, m), [m]).value;
      && r.env.managers == s.env.managers
      && r.watcher.mocked == s.watcher.mocked
      && WatchedSet(r) == WatchedSet(s)
      && r.env.postSave == s.env.postSave + [SaveHookOf(m)]
      && r.env.postDelete == s.env.postDelete + [DeleteHookOf(m)]
      && !Tidy(r)
  {
    WatchThenUnwatchIsBulk(s, m);
    WatchThenUnwatchBulk(s, m);
    var r := UnsetWatchers(SetWatcher(s, m), [m]).value;
    assert r.env.postSave[|s.env.postSave|] == SaveHookOf(m);
  }

  /** A save appends its instance once per live save receiver. */
  lemma SaveAppendsPerReceiver(s: Sys, m: Model, x: Instance, isNew: bool)
    requires HooksTracked(s)
    requires m in ListsOf(s.watcher, if isNew then Created else Updated)
    ensures var k := if isNew then Created else Updated;
      ListsOf(Save(s, m, x, isNew).watcher, k)[m] == ListsOf(s.watcher, k)[m] + Repeat(x, LiveCount(s.env.postSave, m))
  {
  }

  /** As written: the state right after watching and unwatching `m` is valid, with one live save receiver for `m`. */
  lemma AfterUnwatch(s: Sys, m: Model)
    requires Tidy(s) && m !in WatchedSet(s)
    ensures UnsetWatchers(SetWatcher(s, m), [m]).Ok?
    ensures var r := UnsetWatchers(SetWatcher(s, m), [m]).value;
      && Valid(r) && m !in WatchedSet(r)
      && LiveCount(r.env.postSave, m) == 1
      && (forall k :: m in ListsOf(r.watcher, k) && ListsOf(r.watcher, k)[m] == [])
  {
    UnwatchLeavesReceivers(s, m);
    WatchThenUnwatchBulk(s, m);
    SetWatcherKeepsValid(s, m);
    UnsetKeepsValid(SetWatcher(s, m), [m]);
    TidyLiveCounts(s, m);
    LiveCountConnect(s.env.postSave, SaveHookOf(m), m, m);
  }

  /** As written: once unwatched, a save of the model is still appended to its list. */
  lemma CaptureAfterUnwatch(s: Sys, m: Model, x: Instance, isNew: bool)
    requires Tidy(s) && m !in WatchedSet(s)
    ensures UnsetWatchers(SetWatcher(s, m), [m]).Ok?
    ensures var r := UnsetWatchers(SetWatcher(s, m), [m]).value; var k := if isNew then Created else Updated;
      && Valid(r) && m !in WatchedSet(r) && m in ListsOf(r.watcher, k)
      && ListsOf(Save(r, m, x, isNew).watcher, k)[m] == [x]
  {
    AfterUnwatch(s, m);
    SaveIntoEmpty(UnsetWatchers(SetWatcher(s, m), [m]).value, m, x, isNew);
  }

  /** With one live save receiver, a save lands once in an empty list. */
  lemma SaveIntoEmpty(r: Sys, m: Model, x: Instance, isNew: bool)
    requires HooksTracked(r) && LiveCount(r.env.postSave, m) == 1
    requires forall k :: m in ListsOf(r.watcher, k) && ListsOf(r.watcher, k)[m] == []
    ensures ListsOf(Save(r, m, x, isNew).watcher, if isNew then Created else Updated)[m] == [x]
  {
    SaveAppendsPerReceiver(r, m, x, isNew);
    assert Repeat(x, 1) == [x];
    assert ListsOf(r.watcher, if isNew then Created else Updated)[m] + Repeat(x, 1) == [x];
  }

  /** As written: watching the model again leaves two closures per signal, so every save is captured twice. */
  lemma RewatchCapturesTwice(s: Sys, m: Model, x: Instance, isNew: bool)
    requires Tidy(s) && m !in WatchedSet(s)
    ensures UnsetWatchers(SetWatcher(s, m), [m]).Ok?
    ensures var again := SetWatcher(UnsetWatchers(SetWatcher(s, m), [m]).value, m);
      var k := if isNew then Created else Updated;
      && Valid(again) && m in WatchedSet(again) && m in ListsOf(again.watcher, k)
      && ListsOf(Save(again, m, x, isNew).watcher, k)[m] == [x, x]
  {
    AfterUnwatch(s, m);
    var r := UnsetWatchers(SetWatcher(s, m), [m]).value;
    SetWatcherKeepsValid(r, m);
    LiveCountConnect(r.env.postSave, SaveHookOf(m), m, m);
    SaveTwiceIntoEmpty(SetWatcher(r, m), m, x, isNew);
  }

  /** With two live save receivers, a save lands twice in an empty list. */
  lemma SaveTwiceIntoEmpty(r: Sys, m: Model, x: Instance, isNew: bool)
    requires HooksTracked(r) && LiveCount(r.env.postSave, m) == 2
    requires forall k :: m in ListsOf(r.watcher, k) && ListsOf(r.watcher, k)[m] == []
    ensures ListsOf(Save(r, m, x, isNew).watcher, if isNew then Created else Updated)[m] == [x, x]
  {
    SaveAppendsPerReceiver(r, m, x, isNew);
    assert Repeat(x, 2) == [x, x];
    assert ListsOf(r.watcher, if isNew then Created else Updated)[m] + Repeat(x, 2) == [x, x];
  }

  /** The smallest world showing it: a fresh watcher, one model, one new instance saved after re-watching. */
  lemma DoubleCaptureExample()
    ensures UnsetWatchers(SetWatcher(Init(map[]), 1), [1]).Ok?
    ensures var again := SetWatcher(UnsetWatchers(SetWatcher(Init(map[]), 1), [1]).value, 1);
      && HooksTracked(again)
      && Save(again, 1, Instance(0, 7), true).watcher.created[1] == [Instance(0, 7), Instance(0, 7)]
  {
    InitTidy(map[]);
    RewatchCapturesTwice(Init(map[]), 1, Instance(0, 7), true);
  }

  /**
   As intended: after `set_watcher(m)` and the corrected `unset_watchers(m)`
   the world is exactly as before, the state is tidy again, and only the
   model's now empty lists remain.
   */
  lemma UnwatchIntendedRestoresWorld(s: Sys, m: Model)
    requires Tidy(s) && m !in WatchedSet(s)
    ensures UnsetWatchersIntended(SetWatcher(s, m), [m]).Ok?
    ensures var r := UnsetWatchersIntended(SetWatcher(s, m), [m]).value;
      && r.env == s.env
      && r.watcher.mocked == s.watcher.mocked
      && WatchedSet(r) == WatchedSet(s)
      && (forall k :: ListsOf(r.watcher, k) == ListsOf(s.watcher, k)[m := []])
      && Tidy(r)
  {
    ValidSelfHooked(s);
    IntendedGivesWorldBack(s, m);
    SetWatcherKeepsTidy(s, m);
    UnsetIntendedKeepsTidy(SetWatcher(s, m), [m]);
  }

  /** The table facts behind the intended round trip, apart from the rest of the invariant. */
  lemma IntendedGivesWorldBack(s: Sys, m: Model)
    requires m !in WatchedSet(s) && m !in s.watcher.mocked
    requires OnePerModel(s.env.postSave, WatchedSet(s)) && SelfHooked(s.env.postSave)
    requires OnePerModel(s.env.postDelete, WatchedSet(s)) && SelfHooked(s.env.postDelete)
    ensures UnsetWatchersIntended(SetWatcher(s, m), [m]).Ok?
    ensures var r := UnsetWatchersIntended(SetWatcher(s, m), [m]).value;
      && r.env == s.env
      && r.watcher.mocked == s.watcher.mocked
      && WatchedSet(r) == WatchedSet(s)
      && (forall k :: ListsOf(r.watcher, k) == ListsOf(s.watcher, k)[m := []])
  {
    WatchThenUnwatchBulk(s, m);
    ConnectThenDrop(s.env.postSave, WatchedSet(s), SaveHook(m), m);
    ConnectThenDrop(s.env.postDelete, WatchedSet(s), DeleteHook(m), m);
  }

  /** As intended: once unwatched, a save of the model changes nothing. */
  lemma UnwatchIntendedStopsCapture(s: Sys, m: Model, x: Instance, isNew: bool)
    requires Tidy(s) && m !in WatchedSet(s)
    ensures UnsetWatchersIntended(SetWatcher(s, m), [m]).Ok?
    ensures var r := UnsetWatchersIntended(SetWatcher(s, m), [m]).value;
      && HooksTracked(r)
      && Save(r, m, x, isNew) == r
  {
    UnwatchIntendedRestoresWorld(s, m);
    SaveRoutesOnce(UnsetWatchersIntended(SetWatcher(s, m), [m]).value, m, x, isNew);
  }

  /** As intended: watching the model again captures every save exactly once. */
  lemma RewatchIntendedCapturesOnce(s: Sys, m: Model, x: Instance, isNew: bool)
    requires Tidy(s) && m !in WatchedSet(s)
    ensures UnsetWatchersIntended(SetWatcher(s, m), [m]).Ok?
    ensures var again := SetWatcher(UnsetWatchersIntended(SetWatcher(s, m), [m]).value, m);
      var k := if isNew then Created else Updated;
      && Tidy(again)
      && ListsOf(Save(again, m, x, isNew).watcher, k)[m] == [x]
  {
    UnwatchIntendedRestoresWorld(s, m);
    var r := UnsetWatchersIntended(SetWatcher(s, m), [m]).value;
    SetWatcherKeepsTidy(r, m);
    var again := SetWatcher(r, m);
    SaveRoutesOnce(again, m, x, isNew);
  }

  /** Unwatching only models that are not watched changes nothing. */
  lemma UnsetIgnoresUnwatched(s: Sys, models: seq<Model>)
    requires Valid(s) && s.watcher.watched.Some? && |models| > 0
    requires forall i :: 0 <= i < |models| ==> models[i] !in WatchedSet(s)
    ensures UnsetWatchers(s, models) == Ok(s)
  {
    ValidHooksOnly(s);
    assert UnsetTargets(s, models) == {};
    UnsetBulkEmpty(s);
  }
}
