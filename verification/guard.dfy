/**
 The bypass guard: the manager methods that write without sending signals are
 replaced by a raising stand-in while a model is watched, and put back from a
 record of the originals when it is unwatched.
 */
module BypassGuard {
  import opened Outcomes

  /** The guarded methods, `update`, `bulk_create` and `_update`. */
  datatype Method = Update | BulkCreate | LowLevelUpdate

  /** `NOT_SUPPORTED_METHODS`, in the order the guard visits them. */
  const NotSupportedMethods: seq<Method> := [Update, BulkCreate, LowLevelUpdate]

  /** What `getattr(manager, name)` yields: a working callable (an opaque token) or the raising stand-in. */
  datatype Impl = Callable(token: nat) | StandIn

  /** The effect of calling a manager method. */
  datatype Outcome = Ran(token: nat) | Raised(error: Error)

  /** Calling a method: the stand-in raises, any other callable runs. */
  function Invoke(impl: Impl): (o: Outcome)
    ensures o.Raised? <==> impl == StandIn
    ensures o.Raised? ==> o.error == NotImplemented
    ensures impl.Callable? ==> o == Ran(impl.token)
  {
    match impl
    case StandIn => Raised(NotImplemented)
    case Callable(token) => Ran(token)
  }

  /** The guarded attributes of one manager; its other attributes are never touched. */
  datatype MethodTable = MethodTable(update: Impl, bulkCreate: Impl, lowLevelUpdate: Impl)
  {
    function Get(meth: Method): Impl
    {
      match meth
      case Update => update
      case BulkCreate => bulkCreate
      case LowLevelUpdate => lowLevelUpdate
    }

    /** `setattr(manager, name, impl)`. */
    function Set(meth: Method, impl: Impl): (t: MethodTable)
      ensures t.Get(meth) == impl
      ensures forall other :: other != meth ==> t.Get(other) == Get(other)
    {
      match meth
      case Update => this.(update := impl)
      case BulkCreate => this.(bulkCreate := impl)
      case LowLevelUpdate => this.(lowLevelUpdate := impl)
    }
  }

  /** Every method a table holds is a guarded one. */
  lemma AllGuarded(meth: Method)
    ensures meth in NotSupportedMethods
  {
    match meth
    case Update =>
    case BulkCreate =>
    case LowLevelUpdate =>
  }

  /** Two tables that answer alike for every method are the same table. */
  lemma TableExt(t: MethodTable, u: MethodTable)
    requires forall meth :: t.Get(meth) == u.Get(meth)
    ensures t == u
  {
    assert t.Get(Update) == u.Get(Update);
    assert t.Get(BulkCreate) == u.Get(BulkCreate);
    assert t.Get(LowLevelUpdate) == u.Get(LowLevelUpdate);
  }

  /** A manager's `name`. */
  type ManagerName = string

  /** The managers of one model, by name (what `_get_model_managers` discovers). */
  type Managers = map<ManagerName, MethodTable>

  /** The originals saved for one manager: method to callable. */
  type Saved = map<Method, Impl>

  /** `_mocked_methods[model]`: manager name to the originals saved for it. */
  type Record = map<ManagerName, Saved>

  /** The inner loop of `_mock_forbidden_methods`: each listed method overwritten by the stand-in. */
  function Block(t: MethodTable, meths: seq<Method>): (r: MethodTable)
    ensures forall meth :: r.Get(meth) == if meth in meths then StandIn else t.Get(meth)
    decreases |meths|
  {
    if meths == [] then t else Block(t.Set(meths[0], StandIn), meths[1..])
  }

  /** The originals read by `getattr` before each guarded method is overwritten. */
  function Snapshot(t: MethodTable): (s: Saved)
    ensures s.Keys == set meth | meth in NotSupportedMethods
    ensures forall meth :: meth in s ==> s[meth] == t.Get(meth)
  {
    map meth | meth in NotSupportedMethods :: t.Get(meth)
  }

  /** Every manager with all its guarded methods overwritten by the stand-in. */
  function BlockAll(ms: Managers): (r: Managers)
    ensures r.Keys == ms.Keys
    ensures forall n, meth :: n in ms ==> r[n].Get(meth) == StandIn
  {
    var r := map n | n in ms :: Block(ms[n], NotSupportedMethods);
    assert forall n, meth :: n in ms ==> r[n].Get(meth) == StandIn by {
      forall n, meth | n in ms
        ensures r[n].Get(meth) == StandIn
      {
        AllGuarded(meth);
      }
    }
    r
  }

  /** The record of every manager's guarded methods before they are overwritten. */
  function SnapshotAll(ms: Managers): (r: Record)
    ensures r.Keys == ms.Keys
    ensures forall n, meth :: n in ms && meth in NotSupportedMethods ==>
              meth in r[n] && r[n][meth] == ms[n].Get(meth)
  {
    map n | n in ms :: Snapshot(ms[n])
  }

  /**
   `_mock_forbidden_methods` on one model's managers: every guarded method of every
   manager becomes the stand-in, and the record keeps the prior callables.
   */
  function Mock(ms: Managers): (r: (Managers, Record))
    ensures r.0.Keys == ms.Keys && r.1.Keys == ms.Keys
    ensures forall n, meth :: n in ms ==> Invoke(r.0[n].Get(meth)) == Raised(NotImplemented)
    ensures forall n, meth :: n in ms && meth in NotSupportedMethods ==>
              meth in r.1[n] && r.1[n][meth] == ms[n].Get(meth)
  {
    (BlockAll(ms), SnapshotAll(ms))
  }

  /** The inner loop of `_unmock_forbidden_methods`: each saved method written back. */
  function Restore(t: MethodTable, saved: Saved): (r: MethodTable)
    ensures forall meth :: r.Get(meth) == if meth in saved then saved[meth] else t.Get(meth)
  {
    MethodTable(
      if Update in saved then saved[Update] else t.update,
      if BulkCreate in saved then saved[BulkCreate] else t.bulkCreate,
      if LowLevelUpdate in saved then saved[LowLevelUpdate] else t.lowLevelUpdate)
  }

  /** `_unmock_forbidden_methods` on one model's managers, given the popped record. */
  function Unmock(ms: Managers, rec: Record): (r: Managers)
    ensures r.Keys == ms.Keys
    ensures forall n, meth :: n in ms ==>
              r[n].Get(meth) == if n in rec && meth in rec[n] then rec[n][meth] else ms[n].Get(meth)
  {
    map n | n in ms :: if n in rec then Restore(ms[n], rec[n]) else ms[n]
  }

  /** Restoring a snapshot of `t` over any table gives back `t`. */
  lemma RestoreSnapshot(t: MethodTable, orig: MethodTable)
    ensures Restore(t, Snapshot(orig)) == orig
  {
    var r := Restore(t, Snapshot(orig));
    forall meth
      ensures r.Get(meth) == orig.Get(meth)
    {
      AllGuarded(meth);
    }
    TableExt(r, orig);
  }

  /** Two manager maps with the same names and tables are equal. */
  lemma ManagersExt(a: Managers, b: Managers)
    requires a.Keys == b.Keys
    requires forall n :: n in a ==> a[n] == b[n]
    ensures a == b
  {
  }

  lemma RestoredManager(ms: Managers, n: ManagerName)
    requires n in ms
    ensures Unmock(Mock(ms).0, Mock(ms).1)[n] == ms[n]
  {
    var m := Mock(ms);
    assert m.1[n] == Snapshot(ms[n]);
    assert Unmock(m.0, m.1)[n] == Restore(m.0[n], m.1[n]);
    RestoreSnapshot(m.0[n], ms[n]);
  }

  /** With no record (`pop(model, {})`), unmocking changes nothing. */
  lemma UnmockWithoutRecord(ms: Managers)
    ensures Unmock(ms, map[]) == ms
  {
  }

  /** Guarding and then restoring from the record gives back exactly the original managers. */
  lemma MockThenUnmock(ms: Managers)
    ensures Unmock(Mock(ms).0, Mock(ms).1) == ms
  {
    var m := Mock(ms);
    var back := Unmock(m.0, m.1);
    assert back.Keys == ms.Keys;
    forall n | n in ms
      ensures back[n] == ms[n]
    {
      RestoredManager(ms, n);
    }
    ManagersExt(back, ms);
  }
}
