/**
 The `ModelWatcher` state machine: the watched-model set, the three change
 dictionaries and the record of guarded manager methods, together with the
 parts of Django it changes (manager method tables and the `post_save` /
 `post_delete` receiver lists). Signals arrive as explicit save and delete
 events.
 */
module ModelWatcher {
  import opened Outcomes
  import opened ChangeRegistry
  import opened BypassGuard
  import opened Signals

  /** The watcher's own attributes. */
  datatype Watcher = Watcher(
    watched: Option<set<Model>>,   // `watched_models`: None until the first `set_watcher`
    created: Lists,
    updated: Lists,
    deleted: Lists,
    mocked: map<Model, Record>)    // `_mocked_methods`

  /** What the watcher changes in Django: every model's managers and the receivers of both signals. */
  datatype Env = Env(
    managers: map<Model, Managers>,
    postSave: seq<Connection>,
    postDelete: seq<Connection>)

  datatype Sys = Sys(watcher: Watcher, env: Env)

  /** `ModelWatcher()`, in a Django world with the given managers and none of the watcher's receivers. */
  function Init(managers: map<Model, Managers>): Sys
  {
    Sys(Watcher(None, map[], map[], map[], map[]), Env(managers, [], []))
  }

  /** The watched models; a missing set holds none. */
  function WatchedSet(s: Sys): set<Model>
  {
    if s.watcher.watched.Some? then s.watcher.watched.value else {}
  }

  /** `_get_model_managers(model)`, keyed by manager name; a model the world does not list has none. */
  function ManagersOf(env: Env, m: Model): Managers
  {
    if m in env.managers then env.managers[m] else map[]
  }

  /** The world with the managers of `m` replaced. */
  function WithManagers(env: Env, m: Model, ms: Managers): Env
  {
    if m in env.managers then env.(managers := env.managers[m := ms]) else env
  }

  function ListsOf(w: Watcher, k: Kind): Lists
  {
    match k
    case Created => w.created
    case Updated => w.updated
    case Deleted => w.deleted
  }

  function WithLists(w: Watcher, k: Kind, lists: Lists): (r: Watcher)
    ensures ListsOf(r, k) == lists
    ensures forall other :: other != k ==> ListsOf(r, other) == ListsOf(w, other)
    ensures r.watched == w.watched && r.mocked == w.mocked
  {
    match k
    case Created => w.(created := lists)
    case Updated => w.(updated := lists)
    case Deleted => w.(deleted := lists)
  }

  /** The originals recorded for `m`, or none (`_mocked_methods.pop(model, {})`). */
  function RecordOf(w: Watcher, m: Model): Record
  {
    if m in w.mocked then w.mocked[m] else map[]
  }

  // ---------------------------------------------------------------- set_watcher

  /**
   `set_watcher(model)`. An already watched model leaves everything as it is.
   Otherwise the model gets three empty lists, a save and a delete receiver with
   itself as sender, its managers' guarded methods replaced by the raising
   stand-in, and the replaced callables recorded; nothing of any other model
   changes.
   */
  function SetWatcher(s: Sys, m: Model): (r: Sys)
    ensures m in WatchedSet(s) ==> r == s
    ensures m !in WatchedSet(s) ==>
      && r.watcher.watched == Some(WatchedSet(s) + {m})
      && (forall k :: ListsOf(r.watcher, k) == ListsOf(s.watcher, k)[m := []])
      && r.env.postSave == s.env.postSave + [Connection(SaveHook(m), ModelClass(m))]
      && r.env.postDelete == s.env.postDelete + [Connection(DeleteHook(m), ModelClass(m))]
  {
    if m in WatchedSet(s) then s
    else
      var guarded := Mock(ManagersOf(s.env, m));
      var w := Watcher(
        Some(WatchedSet(s) + {m}),
        s.watcher.created[m := []],
        s.watcher.updated[m := []],
        s.watcher.deleted[m := []],
        s.watcher.mocked[m := guarded.1]);
      var env := WithManagers(s.env, m, guarded.0);
      Sys(w, Env(env.managers,
                 s.env.postSave + [Connection(SaveHook(m), ModelClass(m))],
                 s.env.postDelete + [Connection(DeleteHook(m), ModelClass(m))]))
  }

  /**
   Watching a model not yet watched replaces every guarded method of each of its
   managers by the raising stand-in, records exactly the callables it replaced,
   and leaves every other model's managers and record alone.
   */
  lemma SetWatcherGuards(s: Sys, m: Model)
    requires m !in WatchedSet(s)
    ensures var r := SetWatcher(s, m);
      && r.env.managers.Keys == s.env.managers.Keys
      && ManagersOf(r.env, m).Keys == ManagersOf(s.env, m).Keys
      && (forall n, meth :: n in ManagersOf(r.env, m) ==>
            Invoke(ManagersOf(r.env, m)[n].Get(meth)) == Raised(NotImplemented))
      && (forall o :: o != m ==> ManagersOf(r.env, o) == ManagersOf(s.env, o))
      && r.watcher.mocked == s.watcher.mocked[m := Mock(ManagersOf(s.env, m)).1]
      && (forall n, meth :: n in ManagersOf(s.env, m) && meth in NotSupportedMethods ==>
            r.watcher.mocked[m][n][meth] == ManagersOf(s.env, m)[n].Get(meth))
  {
  }

  // ------------------------------------------------------------- clean_watchers

  /** One dictionary after `clean_watchers(*models)`: the named models, or every key when none are named, reset. */
  function Cleared(lists: Lists, models: seq<Model>): Lists
  {
    ResetLists(lists, if |models| == 0 then lists.Keys else Elements(models))
  }

  /**
   `clean_watchers(*models)`: the three lists of every named model (of every model
   with lists, when none is named) become empty; the other lists, the watched
   set, the guard record and Django's state are left alone.
   */
  function CleanWatchers(s: Sys, models: seq<Model>): (r: Sys)
    ensures r.env == s.env
    ensures r.watcher.watched == s.watcher.watched && r.watcher.mocked == s.watcher.mocked
    ensures forall k :: ListsOf(r.watcher, k).Keys == ListsOf(s.watcher, k).Keys + Elements(models)
    ensures forall k, m :: m in ListsOf(r.watcher, k) && (|models| == 0 || m in models) ==>
              ListsOf(r.watcher, k)[m] == []
    ensures forall k, m :: m in ListsOf(s.watcher, k) && |models| > 0 && m !in models ==>
              ListsOf(r.watcher, k)[m] == ListsOf(s.watcher, k)[m]
  {
    s.(watcher := s.watcher.(
      created := Cleared(s.watcher.created, models),
      deleted := Cleared(s.watcher.deleted, models),
      updated := Cleared(s.watcher.updated, models)))
  }

  // ------------------------------------------------------------- unset_watchers

  /** The models `unset_watchers(*models)` acts on: the watched ones named, or every watched one when none is named. */
  function UnsetTargets(s: Sys, models: seq<Model>): (t: set<Model>)
    ensures t <= WatchedSet(s)
    ensures forall m :: m in t <==> m in WatchedSet(s) && (|models| == 0 || m in models)
  {
    if |models| == 0 then WatchedSet(s) else Elements(models) * WatchedSet(s)
  }

  /**
   The loop body for a watched model: drop it from the watched set, call
   `post_save.disconnect(model)` and `post_delete.disconnect(model)` (the model
   passed as the receiver), and put its managers' methods back.
   */
  function UnsetOne(s: Sys, m: Model): Sys
  {
    Sys(
      s.watcher.(watched := Some(WatchedSet(s) - {m}), mocked := s.watcher.mocked - {m}),
      Env(WithManagers(s.env, m, Unmock(ManagersOf(s.env, m), RecordOf(s.watcher, m))).managers,
          Disconnect(s.env.postSave, ModelClass(m), NoSender),
          Disconnect(s.env.postDelete, ModelClass(m), NoSender)))
  }

  /** `for model in models: if model in watched_models: ...`, in the order given. */
  function UnsetLoop(s: Sys, models: seq<Model>): Sys
    decreases |models|
  {
    if models == [] then s
    else UnsetLoop(if models[0] in WatchedSet(s) then UnsetOne(s, models[0]) else s, models[1..])
  }

  /**
   The combined effect of unwatching the models of `t`, independent of visiting
   order: they leave the watched set and the guard record, their managers get
   their recorded methods back, and nothing else changes (the receiver lists
   included).
   */
  function UnsetBulk(s: Sys, t: set<Model>): (r: Sys)
    ensures r.watcher.watched == Some(WatchedSet(s) - t)
    ensures r.watcher.mocked == s.watcher.mocked - t
    ensures forall k :: ListsOf(r.watcher, k) == ListsOf(s.watcher, k)
    ensures r.env.postSave == s.env.postSave && r.env.postDelete == s.env.postDelete
    ensures r.env.managers.Keys == s.env.managers.Keys
    ensures forall m :: m !in t ==> ManagersOf(r.env, m) == ManagersOf(s.env, m)
    ensures forall m :: m in t ==>
              ManagersOf(r.env, m) == Unmock(ManagersOf(s.env, m), RecordOf(s.watcher, m))
  {
    var r := Sys(
      s.watcher.(watched := Some(WatchedSet(s) - t), mocked := s.watcher.mocked - t),
      s.env.(managers := map o | o in s.env.managers ::
        if o in t then Unmock(s.env.managers[o], RecordOf(s.watcher, o)) else s.env.managers[o]));
    assert forall m :: m in t && m !in s.env.managers ==> Unmock(map[], RecordOf(s.watcher, m)) == map[];
    r
  }

  /** Every receiver in both signal tables is one of the watcher's closures. */
  ghost predicate HooksOnly(s: Sys)
  {
    && (forall i :: 0 <= i < |s.env.postSave| ==> IsHook(s.env.postSave[i].receiver))
    && (forall i :: 0 <= i < |s.env.postDelete| ==> IsHook(s.env.postDelete[i].receiver))
  }

  /** Unwatching one model at a time is unwatching it in bulk. */
  lemma UnsetOneIsBulk(s: Sys, m: Model)
    requires HooksOnly(s)
    ensures UnsetOne(s, m) == UnsetBulk(s, {m})
    ensures HooksOnly(UnsetOne(s, m))
  {
    assert Connection(ModelClass(m), NoSender) !in s.env.postSave;
    assert Connection(ModelClass(m), NoSender) !in s.env.postDelete;
    var a, b := UnsetOne(s, m), UnsetBulk(s, {m});
    assert a.env.managers == b.env.managers;
  }

  /** Unwatching two disjoint sets one after the other is unwatching their union. */
  lemma UnsetBulkCompose(s: Sys, a: set<Model>, b: set<Model>)
    requires a !! b
    ensures UnsetBulk(UnsetBulk(s, a), b) == UnsetBulk(s, a + b)
  {
    var s1 := UnsetBulk(s, a);
    var x, y := UnsetBulk(s1, b), UnsetBulk(s, a + b);
    assert x.watcher.mocked == y.watcher.mocked;
    assert (WatchedSet(s) - a) - b == WatchedSet(s) - (a + b);
    assert x.watcher.watched == y.watcher.watched;
    WatcherExt(x.watcher, y.watcher);
    assert forall o :: o in b ==> RecordOf(s1.watcher, o) == RecordOf(s.watcher, o);
    forall o | o in x.env.managers
      ensures x.env.managers[o] == y.env.managers[o]
    {
      assert ManagersOf(x.env, o) == ManagersOf(y.env, o);
    }
    assert x.env.managers == y.env.managers;
  }

  /** Unwatching nothing changes nothing once the watched set exists. */
  lemma UnsetBulkEmpty(s: Sys)
    requires s.watcher.watched.Some?
    ensures UnsetBulk(s, {}) == s
  {
    var r := UnsetBulk(s, {});
    forall o | o in r.env.managers
      ensures r.env.managers[o] == s.env.managers[o]
    {
      assert ManagersOf(r.env, o) == ManagersOf(s.env, o);
    }
    assert r.env.managers == s.env.managers;
    assert r.watcher.mocked == s.watcher.mocked;
    assert WatchedSet(s) - {} == WatchedSet(s);
    WatcherExt(r.watcher, s.watcher);
  }

  /**
   The loop of `unset_watchers` over any sequence of models equals the bulk
   update of the watched ones among them, so the order in which it visits the
   models does not matter.
   */
  lemma {:induction false} UnsetLoopIsBulk(s: Sys, models: seq<Model>)
    requires s.watcher.watched.Some? && HooksOnly(s)
    ensures UnsetLoop(s, models) == UnsetBulk(s, Elements(models) * WatchedSet(s))
    decreases |models|
  {
    if models == [] {
      UnsetBulkEmpty(s);
      assert Elements(models) * WatchedSet(s) == {};
    } else {
      var m, rest := models[0], models[1..];
      if m in WatchedSet(s) {
        var s1 := UnsetOne(s, m);
        UnsetOneIsBulk(s, m);
        UnsetLoopIsBulk(s1, rest);
        var t2 := Elements(rest) * WatchedSet(s1);
        UnsetBulkCompose(s, {m}, t2);
        assert {m} + t2 == Elements(models) * WatchedSet(s);
      } else {
        UnsetLoopIsBulk(s, rest);
        assert Elements(rest) * WatchedSet(s) == Elements(models) * WatchedSet(s);
      }
    }
  }

  /** All members of a set in some order: Python visits `watched_models.copy()` in no specified order. */
  ghost function Enumerate(ms: set<Model>): (r: seq<Model>)
    ensures Elements(r) == ms
    decreases ms
  {
    if ms == {} then []
    else
      var m :| m in ms;
      [m] + Enumerate(ms - {m})
  }

  lemma UnsetLoopIsBulkWhenHooksOnly(s: Sys, models: seq<Model>)
    requires s.watcher.watched.Some?
    ensures HooksOnly(s) ==> UnsetLoop(s, models) == UnsetBulk(s, Elements(models) * WatchedSet(s))
  {
    if HooksOnly(s) {
      UnsetLoopIsBulk(s, models);
    }
  }

  /**
   `unset_watchers(*models)`: raises when no model was ever watched (the missing
   set has no `copy`, and an `in` test on it raises); otherwise runs the
   loop over the named models, or over all watched ones when none is named.
   */
  ghost function UnsetWatchers(s: Sys, models: seq<Model>): (r: Result<Sys>)
    ensures r.Err? <==> s.watcher.watched.None?
    ensures r.Err? ==> r.error == (if |models| == 0 then AttributeError else TypeError)
    ensures r.Ok? && HooksOnly(s) ==> r.value == UnsetBulk(s, UnsetTargets(s, models))
  {
    if s.watcher.watched.None? then Err(if |models| == 0 then AttributeError else TypeError)
    else
      var order := if |models| == 0 then Enumerate(WatchedSet(s)) else models;
      UnsetLoopIsBulkWhenHooksOnly(s, order);
      assert Elements(order) * WatchedSet(s) == UnsetTargets(s, models);
      Ok(UnsetLoop(s, order))
  }

  /**
   `unset_watchers` as its docstring describes it ("unset signals"): the same
   as above, and in addition the watcher's own receivers for each unwatched model
   are disconnected.
   */
  function UnsetWatchersIntended(s: Sys, models: seq<Model>): (r: Result<Sys>)
    ensures r.Err? <==> s.watcher.watched.None?
    ensures r.Err? ==> r.error == (if |models| == 0 then AttributeError else TypeError)
    ensures r.Ok? ==>
      var t := UnsetTargets(s, models);
      && r.value.env.postSave == DropHooks(s.env.postSave, t)
      && r.value.env.postDelete == DropHooks(s.env.postDelete, t)
      && r.value.watcher == UnsetBulk(s, t).watcher
      && r.value.env.managers == UnsetBulk(s, t).env.managers
  {
    if s.watcher.watched.None? then Err(if |models| == 0 then AttributeError else TypeError)
    else
      var t := UnsetTargets(s, models);
      var b := UnsetBulk(s, t);
      Ok(b.(env := b.env.(postSave := DropHooks(b.env.postSave, t),
                          postDelete := DropHooks(b.env.postDelete, t))))
  }

  // ------------------------------------------------------------------- signals

  /** A connection made by `set_watcher`: a closure of the given kind, with its own model as sender. */
  predicate HookConnection(c: Connection, save: bool)
  {
    && c.sender.ModelClass?
    && c.receiver == (if save then SaveHook(c.sender.model) else DeleteHook(c.sender.model))
  }

  /** A firing closure finds its model's lists (otherwise Python raises `KeyError`). */
  predicate Tracks(w: Watcher, receiver: Ref)
  {
    IsHook(receiver) ==>
      receiver.model in w.created && receiver.model in w.updated && receiver.model in w.deleted
  }

  /** Both receiver tables hold only the watcher's connections, for models that have lists. */
  ghost predicate HooksTracked(s: Sys)
  {
    && (forall i :: 0 <= i < |s.env.postSave| ==>
          HookConnection(s.env.postSave[i], true) && Tracks(s.watcher, s.env.postSave[i].receiver))
    && (forall i :: 0 <= i < |s.env.postDelete| ==>
          HookConnection(s.env.postDelete[i], false) && Tracks(s.watcher, s.env.postDelete[i].receiver))
  }

  /** The list a firing closure appends to: `receiver_delete` to `deleted`, `receiver_save` by the `created` flag. */
  function Route(receiver: Ref, isNew: bool): Kind
  {
    if receiver.DeleteHook? then Deleted else if isNew then Created else Updated
  }

  /** One closure firing: it appends the instance to its own model's list. */
  function Fire(w: Watcher, receiver: Ref, x: Instance, isNew: bool): (r: Watcher)
    requires Tracks(w, receiver)
    ensures r.created.Keys == w.created.Keys && r.updated.Keys == w.updated.Keys
    ensures r.deleted.Keys == w.deleted.Keys
    ensures r.watched == w.watched && r.mocked == w.mocked
  {
    if IsHook(receiver) then
      var k := Route(receiver, isNew);
      WithLists(w, k, ListsOf(w, k)[receiver.model := ListsOf(w, k)[receiver.model] + [x]])
    else w
  }

  /** `signal.send(sender=model, instance=x, created=isNew)`: the live connections fire in connection order. */
  function Send(w: Watcher, table: seq<Connection>, m: Model, x: Instance, isNew: bool): (r: Watcher)
    requires forall i :: 0 <= i < |table| ==> Tracks(w, table[i].receiver)
    ensures r.created.Keys == w.created.Keys && r.updated.Keys == w.updated.Keys
    ensures r.deleted.Keys == w.deleted.Keys
    ensures r.watched == w.watched && r.mocked == w.mocked
    decreases |table|
  {
    if table == [] then w
    else
      var w1 := if Live(table[0], m) then Fire(w, table[0].receiver, x, isNew) else w;
      assert forall i :: 0 <= i < |table[1..]| ==> Tracks(w1, table[1..][i].receiver) by {
        forall i | 0 <= i < |table[1..]|
          ensures Tracks(w1, table[1..][i].receiver)
        {
          assert table[1..][i] == table[i + 1];
          assert Tracks(w, table[i + 1].receiver);
        }
      }
      Send(w1, table[1..], m, x, isNew)
  }

  /** The watcher after `n` closures have appended `x` to the `k` list of `m`. */
  function AppendN(w: Watcher, k: Kind, m: Model, x: Instance, n: nat): Watcher
    requires n > 0 ==> m in ListsOf(w, k)
  {
    WithLists(w, k, Extend(ListsOf(w, k), m, x, n))
  }

  lemma AppendOneMore(w: Watcher, k: Kind, m: Model, x: Instance, n: nat)
    requires m in ListsOf(w, k)
    ensures AppendN(AppendN(w, k, m, x, 1), k, m, x, n) == AppendN(w, k, m, x, n + 1)
  {
    var l := ListsOf(w, k)[m];
    assert Repeat(x, 1) == [x];
    assert Repeat(x, n + 1) == [x] + Repeat(x, n);
    assert (l + [x]) + Repeat(x, n) == l + Repeat(x, n + 1);
    var a, b := AppendN(AppendN(w, k, m, x, 1), k, m, x, n), AppendN(w, k, m, x, n + 1);
    assert ListsOf(a, k) == ListsOf(b, k);
    assert forall other :: ListsOf(a, other) == ListsOf(b, other);
    WatcherExt(a, b);
  }

  /** Watchers that agree on every part are equal. */
  lemma WatcherExt(a: Watcher, b: Watcher)
    requires a.watched == b.watched && a.mocked == b.mocked
    requires forall k :: ListsOf(a, k) == ListsOf(b, k)
    ensures a == b
  {
    assert ListsOf(a, Created) == ListsOf(b, Created);
    assert ListsOf(a, Updated) == ListsOf(b, Updated);
    assert ListsOf(a, Deleted) == ListsOf(b, Deleted);
  }

  /**
   Sending on a table of the watcher's connections of one kind appends the
   instance to the routed list of `m` once per live connection, and changes
   nothing else.
   */
  lemma {:induction false} SendAppends(w: Watcher, table: seq<Connection>, save: bool, m: Model, x: Instance, isNew: bool)
    requires forall i :: 0 <= i < |table| ==> HookConnection(table[i], save) && Tracks(w, table[i].receiver)
    ensures LiveCount(table, m) > 0 ==> m in ListsOf(w, Route(if save then SaveHook(m) else DeleteHook(m), isNew))
    ensures Send(w, table, m, x, isNew)
         == AppendN(w, Route(if save then SaveHook(m) else DeleteHook(m), isNew), m, x, LiveCount(table, m))
    decreases |table|
  {
    var k := Route(if save then SaveHook(m) else DeleteHook(m), isNew);
    if table == [] {
      WatcherExt(AppendN(w, k, m, x, 0), w);
    } else {
      var c := table[0];
      if Live(c, m) {
        assert c.receiver == (if save then SaveHook(m) else DeleteHook(m));
        var w1 := Fire(w, c.receiver, x, isNew);
        assert w1 == AppendN(w, k, m, x, 1) by {
          assert Repeat(x, 1) == [x];
        }
        SendAppends(w1, table[1..], save, m, x, isNew);
        AppendOneMore(w, k, m, x, LiveCount(table[1..], m));
      } else {
        SendAppends(w, table[1..], save, m, x, isNew);
      }
    }
  }

  /**
   A `post_save` for `m`: every live save receiver appends the instance to
   `created[m]` when the instance is new and to `updated[m]` otherwise; the
   other lists, the watched set, the guard record and Django's state do not
   change.
   */
  function Save(s: Sys, m: Model, x: Instance, isNew: bool): (r: Sys)
    requires HooksTracked(s)
    ensures r.env == s.env
    ensures LiveCount(s.env.postSave, m) > 0 ==> m in ListsOf(s.watcher, if isNew then Created else Updated)
    ensures r.watcher == AppendN(s.watcher, if isNew then Created else Updated, m, x, LiveCount(s.env.postSave, m))
  {
    SendAppends(s.watcher, s.env.postSave, true, m, x, isNew);
    s.(watcher := Send(s.watcher, s.env.postSave, m, x, isNew))
  }

  /** A `post_delete` for `m`: every live delete receiver appends the instance to `deleted[m]`; nothing else changes. */
  function Delete(s: Sys, m: Model, x: Instance): (r: Sys)
    requires HooksTracked(s)
    ensures r.env == s.env
    ensures LiveCount(s.env.postDelete, m) > 0 ==> m in s.watcher.deleted
    ensures r.watcher == AppendN(s.watcher, Deleted, m, x, LiveCount(s.env.postDelete, m))
  {
    SendAppends(s.watcher, s.env.postDelete, false, m, x, false);
    s.(watcher := Send(s.watcher, s.env.postDelete, m, x, false))
  }

  /** A lifecycle event the persistence layer fires. */
  datatype Event =
    | SaveEvent(model: Model, instance: Instance, isNew: bool)
    | DeleteEvent(model: Model, instance: Instance)

  function Step(s: Sys, e: Event): (r: Sys)
    requires HooksTracked(s)
    ensures HooksTracked(r)
    ensures r.env == s.env && r.watcher.watched == s.watcher.watched && r.watcher.mocked == s.watcher.mocked
    ensures forall k :: ListsOf(r.watcher, k).Keys == ListsOf(s.watcher, k).Keys
  {
    match e
    case SaveEvent(m, x, isNew) => Save(s, m, x, isNew)
    case DeleteEvent(m, x) => Delete(s, m, x)
  }

  /** Events applied one after another, in arrival order. */
  function Run(s: Sys, es: seq<Event>): (r: Sys)
    requires HooksTracked(s)
    ensures HooksTracked(r)
    ensures r.env == s.env && r.watcher.watched == s.watcher.watched && r.watcher.mocked == s.watcher.mocked
    ensures forall k :: ListsOf(r.watcher, k).Keys == ListsOf(s.watcher, k).Keys
    decreases |es|
  {
    if es == [] then s else Run(Step(s, es[0]), es[1..])
  }

  // ---------------------------------------------------------------- invariants

  /** While a model is watched, every guarded method of each of its managers is the stand-in. */
  ghost predicate Guarded(s: Sys)
  {
    forall m, n, meth :: m in WatchedSet(s) && n in ManagersOf(s.env, m) ==>
      ManagersOf(s.env, m)[n].Get(meth) == StandIn
  }

  /** The three dictionaries have the same models, and every watched model has lists. */
  ghost predicate ListsAligned(s: Sys)
  {
    var w := s.watcher;
    && w.created.Keys == w.updated.Keys == w.deleted.Keys
    && WatchedSet(s) <= w.created.Keys
  }

  /** Exactly the watched models have a guard record, naming exactly their managers. */
  ghost predicate RecordsMatch(s: Sys)
  {
    && s.watcher.mocked.Keys == WatchedSet(s)
    && (forall m :: m in s.watcher.mocked ==> s.watcher.mocked[m].Keys == ManagersOf(s.env, m).Keys)
  }

  /** Every watched model has a live receiver on both signals. */
  ghost predicate WatchedLive(s: Sys)
  {
    forall m :: m in WatchedSet(s) ==> LiveCount(s.env.postSave, m) > 0 && LiveCount(s.env.postDelete, m) > 0
  }

  /** What holds in every state the watcher can reach. */
  ghost predicate Valid(s: Sys)
  {
    && ListsAligned(s)
    && RecordsMatch(s)
    && HooksTracked(s)
    && Guarded(s)
    && WatchedLive(s)
  }

  /**
   A valid state in which each watched model has exactly one receiver on each
   signal and no unwatched model has any.
   */
  ghost predicate Tidy(s: Sys)
  {
    && Valid(s)
    && OnePerModel(s.env.postSave, WatchedSet(s))
    && OnePerModel(s.env.postDelete, WatchedSet(s))
  }
}
