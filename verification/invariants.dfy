/**
 Every operation of the watcher keeps the reachable-state invariant `Valid`.
 `Tidy` (one receiver per signal for each watched model, none for the others) is
 kept by every operation except `unset_watchers` as written, and is kept by the
 corrected unwatch.
 */
module WatcherInvariants {
  import opened Outcomes
  import opened ChangeRegistry
  import opened BypassGuard
  import opened Signals
  import opened ModelWatcher

  /** A fresh watcher is tidy. */
  lemma InitTidy(managers: map<Model, Managers>)
    ensures Tidy(Init(managers))
  {
  }

  /** Appending one connection for `m` adds one live connection for `m` and none for any other model. */
  lemma LiveCountConnect(table: seq<Connection>, c: Connection, m: Model, o: Model)
    requires c.sender == ModelClass(m)
    ensures LiveCount(table + [c], o) == LiveCount(table, o) + (if o == m then 1 else 0)
  {
    LiveCountAppend(table, [c], o);
    assert [c][1..] == [];
  }

  lemma SetWatcherKeepsValid(s: Sys, m: Model)
    requires Valid(s)
    ensures Valid(SetWatcher(s, m))
  {
    if m !in WatchedSet(s) {
      SetWatcherKeepsBookkeeping(s, m);
      SetWatcherKeepsTracked(s, m);
      SetWatcherKeepsLive(s, m);
    }
  }

  lemma SetWatcherKeepsBookkeeping(s: Sys, m: Model)
    requires ListsAligned(s) && RecordsMatch(s) && Guarded(s) && m !in WatchedSet(s)
    ensures var r := SetWatcher(s, m); ListsAligned(r) && RecordsMatch(r) && Guarded(r)
  {
    SetWatcherKeepsRecords(s, m);
    SetWatcherKeepsGuarded(s, m);
  }

  lemma SetWatcherKeepsRecords(s: Sys, m: Model)
    requires ListsAligned(s) && RecordsMatch(s) && m !in WatchedSet(s)
    ensures var r := SetWatcher(s, m); ListsAligned(r) && RecordsMatch(r)
  {
    var r := SetWatcher(s, m);
    SetWatcherGuards(s, m);
    assert r.watcher.mocked.Keys == WatchedSet(r);
    forall o | o in r.watcher.mocked
      ensures r.watcher.mocked[o].Keys == ManagersOf(r.env, o).Keys
    {
    }
  }

  lemma SetWatcherKeepsGuarded(s: Sys, m: Model)
    requires Guarded(s) && m !in WatchedSet(s)
    ensures Guarded(SetWatcher(s, m))
  {
    var r := SetWatcher(s, m);
    SetWatcherGuards(s, m);
    forall o, n, meth | o in WatchedSet(r) && n in ManagersOf(r.env, o)
      ensures ManagersOf(r.env, o)[n].Get(meth) == StandIn
    {
      if o == m {
        assert Invoke(ManagersOf(r.env, o)[n].Get(meth)) == Raised(NotImplemented);
      } else {
        assert ManagersOf(r.env, o) == ManagersOf(s.env, o);
      }
    }
  }

  lemma SetWatcherKeepsTracked(s: Sys, m: Model)
    requires HooksTracked(s) && m !in WatchedSet(s)
    ensures HooksTracked(SetWatcher(s, m))
  {
    var r := SetWatcher(s, m);
    forall i | 0 <= i < |r.env.postSave|
      ensures HookConnection(r.env.postSave[i], true) && Tracks(r.watcher, r.env.postSave[i].receiver)
    {
      if i < |s.env.postSave| {
        assert r.env.postSave[i] == s.env.postSave[i];
      }
    }
    forall i | 0 <= i < |r.env.postDelete|
      ensures HookConnection(r.env.postDelete[i], false) && Tracks(r.watcher, r.env.postDelete[i].receiver)
    {
      if i < |s.env.postDelete| {
        assert r.env.postDelete[i] == s.env.postDelete[i];
      }
    }
  }

  lemma SetWatcherKeepsLive(s: Sys, m: Model)
    requires WatchedLive(s) && m !in WatchedSet(s)
    ensures WatchedLive(SetWatcher(s, m))
  {
    var r := SetWatcher(s, m);
    forall o | o in WatchedSet(r)
      ensures LiveCount(r.env.postSave, o) > 0 && LiveCount(r.env.postDelete, o) > 0
    {
      LiveCountConnect(s.env.postSave, Connection(SaveHook(m), ModelClass(m)), m, o);
      LiveCountConnect(s.env.postDelete, Connection(DeleteHook(m), ModelClass(m)), m, o);
    }
  }

  lemma SetWatcherKeepsTidy(s: Sys, m: Model)
    requires Tidy(s)
    ensures Tidy(SetWatcher(s, m))
  {
    SetWatcherKeepsValid(s, m);
    if m !in WatchedSet(s) {
      ConnectOnePerModel(s.env.postSave, WatchedSet(s), SaveHook(m), m);
      ConnectOnePerModel(s.env.postDelete, WatchedSet(s), DeleteHook(m), m);
    }
  }

  lemma CleanKeepsValid(s: Sys, models: seq<Model>)
    requires Valid(s)
    ensures Valid(CleanWatchers(s, models))
  {
    var r := CleanWatchers(s, models);
    assert ListsOf(r.watcher, Created).Keys == ListsOf(s.watcher, Created).Keys + Elements(models);
    assert ListsOf(r.watcher, Updated).Keys == ListsOf(s.watcher, Updated).Keys + Elements(models);
    assert ListsOf(r.watcher, Deleted).Keys == ListsOf(s.watcher, Deleted).Keys + Elements(models);
  }

  lemma CleanKeepsTidy(s: Sys, models: seq<Model>)
    requires Tidy(s)
    ensures Tidy(CleanWatchers(s, models))
  {
    CleanKeepsValid(s, models);
  }

  lemma RunKeepsTidy(s: Sys, es: seq<Event>)
    requires Tidy(s)
    ensures Tidy(Run(s, es))
  {
    var r := Run(s, es);
    assert ListsOf(r.watcher, Created).Keys == ListsOf(s.watcher, Created).Keys;
    assert ListsOf(r.watcher, Updated).Keys == ListsOf(s.watcher, Updated).Keys;
    assert ListsOf(r.watcher, Deleted).Keys == ListsOf(s.watcher, Deleted).Keys;
  }

  lemma StepKeepsTidy(s: Sys, e: Event)
    requires Tidy(s)
    ensures Tidy(Step(s, e))
  {
    var r := Step(s, e);
    assert ListsOf(r.watcher, Created).Keys == ListsOf(s.watcher, Created).Keys;
    assert ListsOf(r.watcher, Updated).Keys == ListsOf(s.watcher, Updated).Keys;
    assert ListsOf(r.watcher, Deleted).Keys == ListsOf(s.watcher, Deleted).Keys;
  }

  lemma RunKeepsValid(s: Sys, es: seq<Event>)
    requires Valid(s)
    ensures Valid(Run(s, es))
  {
    var r := Run(s, es);
    assert ListsOf(r.watcher, Created).Keys == ListsOf(s.watcher, Created).Keys;
    assert ListsOf(r.watcher, Updated).Keys == ListsOf(s.watcher, Updated).Keys;
    assert ListsOf(r.watcher, Deleted).Keys == ListsOf(s.watcher, Deleted).Keys;
  }

  /** In a valid state the tables hold only the watcher's closures, so the loop of `unset_watchers` is the bulk update. */
  lemma ValidHooksOnly(s: Sys)
    requires Valid(s)
    ensures HooksOnly(s)
  {
  }

  lemma UnsetBulkKeepsValid(s: Sys, t: set<Model>)
    requires Valid(s) && t <= WatchedSet(s)
    ensures Valid(UnsetBulk(s, t))
  {
    var r := UnsetBulk(s, t);
    assert ListsOf(r.watcher, Created) == ListsOf(s.watcher, Created);
    assert ListsOf(r.watcher, Updated) == ListsOf(s.watcher, Updated);
    assert ListsOf(r.watcher, Deleted) == ListsOf(s.watcher, Deleted);
    assert WatchedSet(r) == WatchedSet(s) - t;
  }

  lemma UnsetKeepsValid(s: Sys, models: seq<Model>)
    requires Valid(s)
    ensures UnsetWatchers(s, models).Ok? ==> Valid(UnsetWatchers(s, models).value)
  {
    if s.watcher.watched.Some? {
      UnsetBulkKeepsValid(s, UnsetTargets(s, models));
    }
  }

  /** The closures of a valid state are each the hook of the model that sends it. */
  lemma ValidSelfHooked(s: Sys)
    requires Valid(s)
    ensures SelfHooked(s.env.postSave) && SelfHooked(s.env.postDelete)
  {
  }

  /** Connections taken from a table of tracked hooks are tracked hooks. */
  lemma NarrowTracked(b: Sys, r: Sys)
    requires HooksTracked(b) && r.watcher == b.watcher
    requires forall i :: 0 <= i < |r.env.postSave| ==> r.env.postSave[i] in b.env.postSave
    requires forall i :: 0 <= i < |r.env.postDelete| ==> r.env.postDelete[i] in b.env.postDelete
    ensures HooksTracked(r)
  {
    forall i | 0 <= i < |r.env.postSave|
      ensures HookConnection(r.env.postSave[i], true) && Tracks(r.watcher, r.env.postSave[i].receiver)
    {
      var c := r.env.postSave[i];
      assert c in b.env.postSave;
      var j :| 0 <= j < |b.env.postSave| && b.env.postSave[j] == c;
    }
    forall i | 0 <= i < |r.env.postDelete|
      ensures HookConnection(r.env.postDelete[i], false) && Tracks(r.watcher, r.env.postDelete[i].receiver)
    {
      var c := r.env.postDelete[i];
      assert c in b.env.postDelete;
      var j :| 0 <= j < |b.env.postDelete| && b.env.postDelete[j] == c;
    }
  }

  /** The parts of validity that do not look at the signal tables carry over to a state with the same watcher and managers. */
  lemma SameBookkeeping(b: Sys, r: Sys)
    requires ListsAligned(b) && RecordsMatch(b) && Guarded(b)
    requires r.watcher == b.watcher && r.env.managers == b.env.managers
    ensures ListsAligned(r) && RecordsMatch(r) && Guarded(r)
  {
    assert WatchedSet(r) == WatchedSet(b);
    assert forall m :: ManagersOf(r.env, m) == ManagersOf(b.env, m);
  }

  /** One live connection per watched model means at least one. */
  lemma OnePerModelLive(s: Sys)
    requires OnePerModel(s.env.postSave, WatchedSet(s)) && OnePerModel(s.env.postDelete, WatchedSet(s))
    ensures WatchedLive(s)
  {
    forall m | m in WatchedSet(s)
      ensures LiveCount(s.env.postSave, m) > 0 && LiveCount(s.env.postDelete, m) > 0
    {
      OnePerModelCount(s.env.postSave, WatchedSet(s), m);
      OnePerModelCount(s.env.postDelete, WatchedSet(s), m);
    }
  }

  /** Removing connections from a valid state keeps it valid, and tidy when one per model remains. */
  lemma NarrowTables(b: Sys, r: Sys)
    requires Valid(b)
    requires r.watcher == b.watcher && r.env.managers == b.env.managers
    requires forall i :: 0 <= i < |r.env.postSave| ==> r.env.postSave[i] in b.env.postSave
    requires forall i :: 0 <= i < |r.env.postDelete| ==> r.env.postDelete[i] in b.env.postDelete
    requires OnePerModel(r.env.postSave, WatchedSet(r)) && OnePerModel(r.env.postDelete, WatchedSet(r))
    ensures Tidy(r)
  {
    NarrowTracked(b, r);
    SameBookkeeping(b, r);
    OnePerModelLive(r);
  }

  lemma UnsetIntendedKeepsTidy(s: Sys, models: seq<Model>)
    requires Tidy(s)
    ensures UnsetWatchersIntended(s, models).Ok? ==> Tidy(UnsetWatchersIntended(s, models).value)
  {
    if s.watcher.watched.Some? {
      var t := UnsetTargets(s, models);
      var b := UnsetBulk(s, t);
      var r := UnsetWatchersIntended(s, models).value;
      UnsetBulkKeepsValid(s, t);
      ValidSelfHooked(s);
      DropOnePerModel(s.env.postSave, WatchedSet(s), t);
      DropOnePerModel(s.env.postDelete, WatchedSet(s), t);
      assert WatchedSet(r) == WatchedSet(s) - t;
      assert forall i :: 0 <= i < |r.env.postSave| ==> r.env.postSave[i] in r.env.postSave;
      assert forall i :: 0 <= i < |r.env.postDelete| ==> r.env.postDelete[i] in r.env.postDelete;
      NarrowTables(b, r);
    }
  }
}
