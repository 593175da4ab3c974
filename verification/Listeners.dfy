/** Listeners of watched state, kept under allocation ids that change (src/rec.rs). */
module Listeners {
  import opened Wrappers

  type Id = nat
  type Callback = nat
  type Inner = int
  type Registry = map<Id, seq<Callback>>

  /** What a listener is handed: the inner value, or the unit that `set` passes. */
  datatype Argument = UnitArgument | Value(inner: Inner)

  /** The user's closure was run on a value. */
  datatype Heard = Heard(callback: Callback, inner: Inner)

  /** The wrapper around the user's closure runs it only on an argument of the inner type. */
  function Notified(listeners: seq<Callback>, arg: Argument): seq<Heard> {
    if listeners == [] || arg.UnitArgument? then []
    else [Heard(listeners[0], arg.inner)] + Notified(listeners[1..], arg)
  }

  function ListenersOf(r: Registry, id: Id): seq<Callback> {
    if id in r then r[id] else []
  }

  /** The registry when a state passes from one id to another: `set` clears what stands under the
      new id if nothing moves there, `set_value` does not. */
  function Rekeyed(r: Registry, oldId: Id, newId: Id, clears: bool): Registry {
    if oldId == newId then r
    else if oldId in r then (r - {oldId})[newId := r[oldId]]
    else if clears then r - {newId}
    else r
  }

  // ---------- The objects ----------

  class Process {
    var callbacks: Registry
    var pointers: set<Id>
    var heard: seq<Heard>

    constructor ()
      ensures callbacks == map[] && pointers == {} && heard == []
    {
      callbacks, pointers, heard := map[], {}, [];
    }

    /** Runs the listeners one by one. */
    method Notify(listeners: seq<Callback>, arg: Argument)
      modifies this`heard
      ensures heard == old(heard) + Notified(listeners, arg)
    {
      var i := 0;
      assert listeners[0..] == listeners;
      while i < |listeners|
        invariant 0 <= i <= |listeners|
        invariant heard + Notified(listeners[i..], arg) == old(heard) + Notified(listeners, arg)
      {
        assert listeners[i..][0] == listeners[i] && listeners[i..][1..] == listeners[i + 1..];
        match arg {
          case UnitArgument =>
          case Value(inner) => heard := heard + [Heard(listeners[i], inner)];
        }
        i := i + 1;
      }
      assert Notified(listeners[i..], arg) == [];
    }
  }

  class State {
    var allocId: Id

    constructor (process: Process, id: Id)
      modifies process
      ensures allocId == id
      ensures process.callbacks == old(process.callbacks)[id := []] && process.pointers == old(process.pointers) + {id}
      ensures process.heard == old(process.heard)
    {
      allocId := id;
      process.callbacks := process.callbacks[id := []];
      process.pointers := process.pointers + {id};
    }

    /** set: the old pointer must be known, or the program stops. */
    method Set(process: Process, newId: Id)
      requires allocId in process.pointers
      modifies this, process
      ensures allocId == newId && process.pointers == old(process.pointers) + {newId}
      ensures process.callbacks == Rekeyed(old(process.callbacks), old(allocId), newId, true)
      ensures process.heard == old(process.heard)
                + Notified(ListenersOf(process.callbacks, newId), UnitArgument)
    {
      var oldId := allocId;
      process.pointers := process.pointers + {newId};
      allocId := newId;
      if oldId != newId {
        if oldId in process.callbacks {
          var cbs := process.callbacks[oldId];
          process.callbacks := (process.callbacks - {oldId})[newId := cbs];
        } else {
          process.callbacks := process.callbacks - {newId};
        }
      }
      var listeners := if newId in process.callbacks then process.callbacks[newId] else [];
      process.Notify(listeners, UnitArgument);
    }

    /** set_value: writing the value may have moved it to another allocation. */
    method SetValue(process: Process, newId: Id, inner: Inner)
      requires allocId in process.pointers
      modifies this, process
      ensures allocId == newId && process.pointers == old(process.pointers) + {newId}
      ensures process.callbacks == Rekeyed(old(process.callbacks), old(allocId), newId, false)
      ensures process.heard == old(process.heard)
                + Notified(ListenersOf(process.callbacks, newId), Value(inner))
    {
      var oldId := allocId;
      process.pointers := process.pointers + {newId};
      allocId := newId;
      if oldId != newId && oldId in process.callbacks {
        var cbs := process.callbacks[oldId];
        process.callbacks := (process.callbacks - {oldId})[newId := cbs];
      }
      var listeners := if newId in process.callbacks then process.callbacks[newId] else [];
      process.Notify(listeners, Value(inner));
    }

    method AddListener(process: Process, callback: Callback)
      modifies process
      ensures process.callbacks
          == old(process.callbacks)[allocId := ListenersOf(old(process.callbacks), allocId) + [callback]]
      ensures process.pointers == old(process.pointers) && process.heard == old(process.heard)
    {
      var cbs := if allocId in process.callbacks then process.callbacks[allocId] else [];
      process.callbacks := process.callbacks[allocId := cbs + [callback]];
    }
  }

  // ---------- Many states, any run ----------

  type Name = nat

  /** The live states with their ids, and the listeners added to each since it was made. */
  datatype World = World(
    ids: map<Name, Id>,
    added: map<Name, seq<Callback>>,
    callbacks: Registry,
    pointers: set<Id>,
    heard: seq<Heard>)

  datatype Op =
    | New(s: Name, id: Id)
    | Set(s: Name, id: Id)
    | SetValue(s: Name, id: Id, inner: Inner)
    | Add(s: Name, callback: Callback)
    | Drop(s: Name)
    | GuardDrop(id: Id, modified: bool, inner: Inner)

  /** No live state but s has the id. */
  ghost predicate Unused(w: World, s: Name, id: Id) {
    forall t | t in w.ids && t != s :: w.ids[t] != id
  }

  ghost predicate Legal(w: World, op: Op) {
    match op
    case New(s, id) => s !in w.ids && Unused(w, s, id)
    case Set(s, id) => s in w.ids && Unused(w, s, id)
    case SetValue(s, id, _) => s in w.ids && Unused(w, s, id)
    case Add(s, _) => s in w.ids && s in w.added
    case Drop(s) => s in w.ids
    case GuardDrop(_, _, _) => true
  }

  /** A dropped state leaves its entries behind. */
  ghost function Next(w: World, op: Op): World
    requires Legal(w, op)
  {
    match op
    case New(s, id) =>
      World(w.ids[s := id], w.added[s := []], w.callbacks[id := []], w.pointers + {id}, w.heard)
    case Set(s, id) =>
      var r := Rekeyed(w.callbacks, w.ids[s], id, true);
      World(w.ids[s := id], w.added, r, w.pointers + {id}, w.heard + Notified(ListenersOf(r, id), UnitArgument))
    case SetValue(s, id, inner) =>
      var r := Rekeyed(w.callbacks, w.ids[s], id, false);
      World(w.ids[s := id], w.added, r, w.pointers + {id}, w.heard + Notified(ListenersOf(r, id), Value(inner)))
    case Add(s, callback) =>
      w.(added := w.added[s := w.added[s] + [callback]],
         callbacks := w.callbacks[w.ids[s] := ListenersOf(w.callbacks, w.ids[s]) + [callback]])
    case Drop(s) => w.(ids := w.ids - {s}, added := w.added - {s})
    case GuardDrop(id, modified, inner) =>
      w.(heard := w.heard + if modified then Notified(ListenersOf(w.callbacks, id), Value(inner)) else [])
  }

  ghost predicate Inv(w: World) {
    && w.added.Keys == w.ids.Keys
    && (forall s, t | s in w.ids && t in w.ids && s != t :: w.ids[s] != w.ids[t])
    && forall s | s in w.ids :: w.ids[s] in w.pointers && w.ids[s] in w.callbacks && w.callbacks[w.ids[s]] == w.added[s]
  }

  /** Moving one state's entry leaves every other state's entry alone. */
  lemma {:induction false} RekeyKeeps(w: World, s: Name, id: Id, clears: bool, w': World)
    requires Inv(w) && s in w.ids && Unused(w, s, id)
    requires w'.ids == w.ids[s := id] && w'.added == w.added && w'.pointers == w.pointers + {id}
    requires w'.callbacks == Rekeyed(w.callbacks, w.ids[s], id, clears)
    ensures Inv(w')
  {
    forall t | t in w'.ids
      ensures w'.ids[t] in w'.pointers && w'.ids[t] in w'.callbacks && w'.callbacks[w'.ids[t]] == w'.added[t]
    {
      assert t != s ==> w.ids[t] != w.ids[s] && w.ids[t] != id;
    }
  }

  lemma {:induction false} StepKeeps(w: World, op: Op)
    requires Inv(w) && Legal(w, op)
    ensures Inv(Next(w, op))
  {
    match op
    case Set(s, id) => RekeyKeeps(w, s, id, true, Next(w, op));
    case SetValue(s, id, _) => RekeyKeeps(w, s, id, false, Next(w, op));
    case _ =>
  }

  function Start(): World {
    World(map[], map[], map[], {}, [])
  }

  ghost predicate IsRun(worlds: seq<World>, ops: seq<Op>) {
    && |worlds| == |ops| + 1 && worlds[0] == Start()
    && forall k | 0 <= k < |ops| :: Legal(worlds[k], ops[k]) && worlds[k + 1] == Next(worlds[k], ops[k])
  }

  lemma {:induction false} RunKeeps(worlds: seq<World>, ops: seq<Op>, k: nat)
    requires IsRun(worlds, ops) && k < |worlds|
    ensures Inv(worlds[k])
    decreases k
  {
    if k > 0 {
      RunKeeps(worlds, ops, k - 1);
      assert Legal(worlds[k - 1], ops[k - 1]);
      StepKeeps(worlds[k - 1], ops[k - 1]);
    }
  }

  /** In every run, through any changes of ids and any reuse of the ids of dropped states, a state's
      listeners are those added to it, and its pointer is known to `set` and `set_value`. */
  lemma {:induction false} ListenersFollow(worlds: seq<World>, ops: seq<Op>, k: nat, s: Name)
    requires IsRun(worlds, ops) && k < |worlds| && s in worlds[k].ids
    ensures var w := worlds[k];
            && s in w.added && ListenersOf(w.callbacks, w.ids[s]) == w.added[s]
            && w.ids[s] in w.pointers
  {
    RunKeeps(worlds, ops, k);
  }

  lemma {:induction false} NotifiedAll(listeners: seq<Callback>, inner: Inner)
    ensures |Notified(listeners, Value(inner))| == |listeners|
    ensures forall i | 0 <= i < |listeners| :: Notified(listeners, Value(inner))[i] == Heard(listeners[i], inner)
  {
    if listeners != [] {
      NotifiedAll(listeners[1..], inner);
    }
  }

  /** In every run a step runs listeners' closures as follows. `set_value` runs each closure added to
      the state, in the order of adding, on the new value; `set` runs none, although
      add_listener_callback promises a call on either. A modified guard runs those of the state that
      has its id now, none if the state has moved to another id. */
  lemma {:induction false} StepHeard(worlds: seq<World>, ops: seq<Op>, k: nat)
    requires IsRun(worlds, ops) && k < |ops|
    ensures var w, w' := worlds[k], worlds[k + 1];
            match ops[k]
            case SetValue(s, _, inner) =>
              && s in w.added && |w'.heard| == |w.heard| + |w.added[s]| && w.heard == w'.heard[..|w.heard|]
              && forall i | 0 <= i < |w.added[s]| :: w'.heard[|w.heard| + i] == Heard(w.added[s][i], inner)
            case GuardDrop(id, true, inner) =>
              && (forall s | s in w.ids && s in w.added && w.ids[s] == id ::
                    w'.heard == w.heard + Notified(w.added[s], Value(inner)))
              && (id !in w.callbacks ==> w'.heard == w.heard)
            case _ => w'.heard == w.heard
  {
    RunKeeps(worlds, ops, k);
    RunKeeps(worlds, ops, k + 1);
    var w := worlds[k];
    assert Legal(w, ops[k]) && worlds[k + 1] == Next(w, ops[k]);
    match ops[k]
    case SetValue(s, id, inner) => NotifiedAll(w.added[s], inner);
    case _ =>
  }

  /** Dropping a state takes none of its listeners away: a guard on the id it had still runs them all. */
  lemma {:induction false} DroppedStillHeard(worlds: seq<World>, ops: seq<Op>, k: nat, inner: Inner)
    requires IsRun(worlds, ops) && k + 1 < |ops| && ops[k].Drop? && ops[k].s in worlds[k].ids
    requires ops[k + 1] == GuardDrop(worlds[k].ids[ops[k].s], true, inner)
    ensures var w := worlds[k];
            ops[k].s in w.added && worlds[k + 2].heard == w.heard + Notified(w.added[ops[k].s], Value(inner))
  {
    RunKeeps(worlds, ops, k);
    assert Legal(worlds[k], ops[k]) && worlds[k + 1] == Next(worlds[k], ops[k]);
    assert Legal(worlds[k + 1], ops[k + 1]) && worlds[k + 2] == Next(worlds[k + 1], ops[k + 1]);
  }

  /** The ids that states had when they were dropped. */
  ghost function DroppedIds(worlds: seq<World>, ops: seq<Op>, k: nat): set<Id>
    requires IsRun(worlds, ops) && k < |worlds|
  {
    if k == 0 then {}
    else
      assert Legal(worlds[k - 1], ops[k - 1]);
      var ids := DroppedIds(worlds, ops, k - 1);
      if ops[k - 1].Drop? then ids + {worlds[k - 1].ids[ops[k - 1].s]} else ids
  }

  ghost predicate HasState(w: World, id: Id) {
    exists s :: s in w.ids && w.ids[s] == id
  }

  /** In every run the entries left without a state are those of dropped states: a state that passes
      to another id takes its listeners along and leaves nothing under the old one. */
  lemma {:induction false} NothingLeftBehind(worlds: seq<World>, ops: seq<Op>, k: nat, id: Id)
    requires IsRun(worlds, ops) && k < |worlds| && id in worlds[k].callbacks
    ensures HasState(worlds[k], id) || id in DroppedIds(worlds, ops, k)
    decreases k
  {
    if k > 0 {
      var w, op := worlds[k - 1], ops[k - 1];
      RunKeeps(worlds, ops, k - 1);
      assert Legal(w, op) && worlds[k] == Next(w, op);
      if id in w.callbacks {
        NothingLeftBehind(worlds, ops, k - 1, id);
        if HasState(w, id) {
          EntryFollows(w, op, id);
        }
      } else {
        assert HasState(worlds[k], id) by {
          assert op.s in worlds[k].ids && worlds[k].ids[op.s] == id;
        }
      }
    }
  }

  lemma {:induction false} EntryFollows(w: World, op: Op, id: Id)
    requires Inv(w) && Legal(w, op) && id in w.callbacks && id in Next(w, op).callbacks && HasState(w, id)
    ensures HasState(Next(w, op), id) || (op.Drop? && w.ids[op.s] == id)
  {
    var w' := Next(w, op);
    var s :| s in w.ids && w.ids[s] == id;
    if s in w'.ids && w'.ids[s] == id {
      assert HasState(w', id);
    }
  }
}
