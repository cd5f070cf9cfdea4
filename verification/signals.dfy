/**
 The part of Django's signal dispatcher the watcher relies on: a signal keeps an
 ordered list of connections, each keyed by (receiver, sender); `connect`
 appends, `disconnect` drops the connection stored under the given key, and
 sending on behalf of a model fires every connection whose sender is that model
 or `None`.
 */
module Signals {
  import opened ChangeRegistry

  /** A receiver or sender as the dispatcher keys it. */
  datatype Ref =
    | SaveHook(model: Model)     // the `receiver_save` closure created when `model` was watched
    | DeleteHook(model: Model)   // the `receiver_delete` closure created when `model` was watched
    | ModelClass(model: Model)   // the model class object itself
    | NoSender                   // `sender=None`: any sender

  datatype Connection = Connection(receiver: Ref, sender: Ref)

  /** Whether the receiver is one of the watcher's closures. */
  predicate IsHook(r: Ref)
  {
    r.SaveHook? || r.DeleteHook?
  }

  /** `r` is `table` with the first connection equal to `key` deleted, the rest in order. */
  ghost predicate RemovesFirst(table: seq<Connection>, key: Connection, r: seq<Connection>)
  {
    exists i :: 0 <= i < |table| && table[i] == key && key !in table[..i] && r == table[..i] + table[i + 1..]
  }

  /** Deleting the first match behind a different head keeps the head. */
  lemma RemovesFirstCons(c: Connection, t: seq<Connection>, key: Connection, rest: seq<Connection>)
    requires c != key && RemovesFirst(t, key, rest)
    ensures RemovesFirst([c] + t, key, [c] + rest)
  {
    var j :| 0 <= j < |t| && t[j] == key && key !in t[..j] && rest == t[..j] + t[j + 1..];
    var table := [c] + t;
    assert table[..j + 1] == [c] + t[..j];
    assert table[j + 2..] == t[j + 1..];
    assert table[j + 1] == key;
  }

  /**
   `signal.disconnect(receiver, sender)`: removes the first connection stored under
   that key, if there is one, and keeps the others in order.
   */
  function Disconnect(table: seq<Connection>, receiver: Ref, sender: Ref): (r: seq<Connection>)
    ensures Connection(receiver, sender) !in table ==> r == table
    ensures Connection(receiver, sender) in table ==> |r| == |table| - 1
    ensures forall c :: c in r ==> c in table
    ensures Connection(receiver, sender) in table ==> RemovesFirst(table, Connection(receiver, sender), r)
  {
    if table == [] then []
    else if table[0] == Connection(receiver, sender) then
      assert table[..0] + table[1..] == table[1..];
      table[1..]
    else
      var rest := Disconnect(table[1..], receiver, sender);
      assert table == [table[0]] + table[1..];
      if Connection(receiver, sender) in table then
        RemovesFirstCons(table[0], table[1..], Connection(receiver, sender), rest);
        [table[0]] + rest
      else [table[0]] + rest
  }

  /** Whether a connection fires when `model` sends (Django's live-receiver test). */
  predicate Live(c: Connection, model: Model)
  {
    c.sender == ModelClass(model) || c.sender == NoSender
  }

  /** How many connections fire when `model` sends. */
  function LiveCount(table: seq<Connection>, model: Model): (n: nat)
    ensures n <= |table|
    ensures n == 0 <==> forall i :: 0 <= i < |table| ==> !Live(table[i], model)
  {
    if table == [] then 0
    else (if Live(table[0], model) then 1 else 0) + LiveCount(table[1..], model)
  }

  /** Counting over a concatenation adds up. */
  lemma {:induction false} LiveCountAppend(a: seq<Connection>, b: seq<Connection>, model: Model)
    ensures LiveCount(a + b, model) == LiveCount(a, model) + LiveCount(b, model)
  {
    if a == [] {
      assert a + b == b;
    } else {
      LiveCountAppend(a[1..], b, model);
      assert (a + b)[1..] == a[1..] + b;
    }
  }

  /** The connections that are not hooks of any model of `ms`, in order. */
  function DropHooks(table: seq<Connection>, ms: set<Model>): (r: seq<Connection>)
    ensures forall c :: c in r <==> c in table && !(IsHook(c.receiver) && c.receiver.model in ms)
    ensures |r| <= |table|
  {
    if table == [] then []
    else
      var c := table[0];
      (if IsHook(c.receiver) && c.receiver.model in ms then [] else [c]) + DropHooks(table[1..], ms)
  }

  /**
   Every connection is sent by a model of `models`, and each of those models has
   exactly one live connection.
   */
  ghost predicate OnePerModel(table: seq<Connection>, models: set<Model>)
  {
    && (forall i :: 0 <= i < |table| ==> table[i].sender.ModelClass? && table[i].sender.model in models)
    && (forall m :: m in models ==> LiveCount(table, m) == 1)
  }

  /** Connecting one receiver for a model not yet present keeps one live connection per model. */
  lemma ConnectOnePerModel(table: seq<Connection>, models: set<Model>, receiver: Ref, m: Model)
    requires OnePerModel(table, models) && m !in models
    ensures OnePerModel(table + [Connection(receiver, ModelClass(m))], models + {m})
  {
    var c := Connection(receiver, ModelClass(m));
    var r := table + [c];
    forall o | o in models + {m}
      ensures LiveCount(r, o) == 1
    {
      LiveCountAppend(table, [c], o);
      assert [c][1..] == [];
      if o == m {
        assert forall i :: 0 <= i < |table| ==> !Live(table[i], m);
      }
    }
    forall i | 0 <= i < |r|
      ensures r[i].sender.ModelClass? && r[i].sender.model in models + {m}
    {
      if i < |table| {
        assert r[i] == table[i];
      }
    }
  }

  /** Every connection is a hook of the model that sends it. */
  predicate SelfHooked(table: seq<Connection>)
  {
    forall i :: 0 <= i < |table| ==>
      table[i].sender.ModelClass? && IsHook(table[i].receiver) && table[i].receiver.model == table[i].sender.model
  }

  /** Dropping the hooks of other models leaves the live count of `o` as it was. */
  lemma {:induction false} LiveCountDrop(table: seq<Connection>, ms: set<Model>, o: Model)
    requires SelfHooked(table) && o !in ms
    ensures LiveCount(DropHooks(table, ms), o) == LiveCount(table, o)
  {
    if table != [] {
      var c := table[0];
      LiveCountDrop(table[1..], ms, o);
      var kept := if IsHook(c.receiver) && c.receiver.model in ms then [] else [c];
      LiveCountAppend(kept, DropHooks(table[1..], ms), o);
      if kept != [] {
        assert kept[1..] == [];
      }
    }
  }

  /** Dropping the hooks of `ms` leaves one live connection for each remaining model. */
  lemma DropOnePerModel(table: seq<Connection>, models: set<Model>, ms: set<Model>)
    requires OnePerModel(table, models) && SelfHooked(table)
    ensures OnePerModel(DropHooks(table, ms), models - ms)
  {
    var r := DropHooks(table, ms);
    forall o | o in models - ms
      ensures LiveCount(r, o) == 1
    {
      LiveCountDrop(table, ms, o);
    }
    forall i | 0 <= i < |r|
      ensures r[i].sender.ModelClass? && r[i].sender.model in models - ms
    {
      assert r[i] in r;
    }
  }

  /** Dropping hooks from a concatenation drops them from each part. */
  lemma {:induction false} DropHooksAppend(a: seq<Connection>, b: seq<Connection>, ms: set<Model>)
    ensures DropHooks(a + b, ms) == DropHooks(a, ms) + DropHooks(b, ms)
  {
    if a != [] {
      DropHooksAppend(a[1..], b, ms);
      assert (a + b)[1..] == a[1..] + b;
    } else {
      assert a + b == b;
    }
  }

  /** A table holding no hook of `ms` is left as it is. */
  lemma {:induction false} DropHooksNone(table: seq<Connection>, ms: set<Model>)
    requires forall i :: 0 <= i < |table| ==> !(IsHook(table[i].receiver) && table[i].receiver.model in ms)
    ensures DropHooks(table, ms) == table
  {
    if table != [] {
      DropHooksNone(table[1..], ms);
      assert [table[0]] + table[1..] == table;
    }
  }

  /** Under one live connection per model, a model of the set has one and any other model none. */
  lemma OnePerModelCount(table: seq<Connection>, models: set<Model>, m: Model)
    requires OnePerModel(table, models)
    ensures LiveCount(table, m) == if m in models then 1 else 0
  {
    if m !in models {
      assert forall i :: 0 <= i < |table| ==> !Live(table[i], m);
    }
  }

  /** Connecting a hook for a model with none yet and then dropping that model's hooks gives the table back. */
  lemma ConnectThenDrop(table: seq<Connection>, models: set<Model>, receiver: Ref, m: Model)
    requires OnePerModel(table, models) && SelfHooked(table) && m !in models
    requires IsHook(receiver) && receiver.model == m
    ensures DropHooks(table + [Connection(receiver, ModelClass(m))], {m}) == table
  {
    var c := Connection(receiver, ModelClass(m));
    DropHooksAppend(table, [c], {m});
    DropHooksNone(table, {m});
    assert DropHooks([c], {m}) == [] + DropHooks([], {m});
  }
}
