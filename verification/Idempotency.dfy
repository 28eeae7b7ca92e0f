/**
 The per-key lock of `client_request_id` and what it is for (`mcpRuntime.lockKey`,
 `existingClientRequest`, mcp_status.go; `executeCommandTool`, mcp_server.go;
 `findRequestByClientID`, approval.go; `loadRequestByClientID`, storage.go).

 Lock objects live in a map only while somebody refers to them; a later call
 makes a new one. `send_line` takes the same lock but looks only into memory.
 Calls without a client_request_id take no lock and are not part of this model.
 */
module Idempotency {

  /** 24 hours, in milliseconds. */
  const WINDOW := 24 * 60 * 60 * 1000

  // ----- the map of lock objects -----

  /** `refs` counts the references to each lock object ever made; objects are
      numbered in the order of their creation. */
  datatype Locks = Locks(keys: map<string, nat>, refs: map<nat, nat>, next: nat)

  /** First section of lockKey. */
  function Entered(l: Locks, key: string): (Locks, nat) {
    var obj := if key in l.keys then l.keys[key] else l.next;
    var count := if obj in l.refs then l.refs[obj] else 0;
    (Locks(l.keys[key := obj], l.refs[obj := count + 1], if key in l.keys then l.next else l.next + 1), obj)
  }

  /** Last section of unlock: the map forgets the key with the last reference. */
  function Left(l: Locks, key: string, obj: nat): Locks {
    var count := if obj in l.refs && l.refs[obj] > 0 then l.refs[obj] - 1 else 0;
    Locks(if count == 0 then l.keys - {key} else l.keys, l.refs[obj := count], l.next)
  }

  class KeyLocks {
    var keys: map<string, nat>
    var refs: map<nat, nat>
    var next: nat

    ghost function View(): Locks
      reads this
    {
      Locks(keys, refs, next)
    }

    constructor ()
      ensures View() == Locks(map[], map[], 0)
    {
      keys, refs, next := map[], map[], 0;
    }

    method Enter(key: string) returns (obj: nat)
      modifies this
      ensures (View(), obj) == Entered(old(View()), key)
      ensures obj == (if key in old(keys) then old(keys)[key] else old(next)) && keys == old(keys)[key := obj]
      ensures refs == old(refs)[obj := (if obj in old(refs) then old(refs)[obj] else 0) + 1]
      ensures next == if key in old(keys) then old(next) else old(next) + 1
    {
      if key in keys {
        obj := keys[key];
      } else {
        obj := next;
        next := next + 1;
        keys := keys[key := obj];
      }
      var count := if obj in refs then refs[obj] else 0;
      refs := refs[obj := count + 1];
      assert keys == old(keys)[key := obj];
    }

    method Leave(key: string, obj: nat)
      requires obj in refs && refs[obj] > 0
      modifies this`keys, this`refs
      ensures View() == Left(old(View()), key, obj)
      ensures refs == old(refs)[obj := old(refs)[obj] - 1]
      ensures keys == if refs[obj] == 0 then old(keys) - {key} else old(keys)
    {
      refs := refs[obj := refs[obj] - 1];
      if refs[obj] == 0 {
        keys := keys - {key};
      }
    }
  }

  // ----- calls -----

  /** The agent's name and its client_request_id. */
  datatype Pair = Pair(agent: string, client: string)

  function LockKey(p: Pair): string {
    p.agent + "\0" + p.client
  }

  /** `exec` tells execute_command from send_line. `seen` is the time of the lookup
      that found nothing and `blind` says that its read of the store failed; `hidden`
      only observes which rows it should have found. */
  datatype Pc =
    | Waiting(pair: Pair, obj: nat, exec: bool)
    | LookMemory(pair: Pair, obj: nat, exec: bool)
    | LookStore(pair: Pair, obj: nat)
    | Create(pair: Pair, obj: nat, exec: bool, seen: nat, blind: bool, hidden: set<nat>)
    | Publish(pair: Pair, obj: nat, row: nat)
    | Unlock(pair: Pair, obj: nat)
    | Leaving(pair: Pair, obj: nat)

  predicate Holds(pc: Pc) {
    !pc.Waiting? && !pc.Leaving?
  }

  /** A stored request; rows are never removed, a deletion only marks them. */
  datatype Row = Row(pair: Pair, created: nat, exec: bool, seen: nat, blind: bool, hidden: set<nat>)

  /** `locked` maps a locked object to the call that holds it. `memory` lists the
      rows loaded. `users` only observes who refers to an object. */
  datatype World = World(
    now: nat,
    locks: Locks,
    locked: map<nat, nat>,
    calls: map<nat, Pc>,
    rows: seq<Row>,
    memory: set<nat>,
    users: map<nat, set<nat>>)

  function Init(): World {
    World(0, Locks(map[], map[], 0), map[], map[], [], {}, map[])
  }

  datatype Step =
    | Tick
    | Call(t: nat, pair: Pair, exec: bool)
    | Lock(t: nat)
    | FindMemory(t: nat)
    | FindStore(t: nat, readable: bool)
    | Insert(t: nat, created: nat, stored: bool, told: bool)
    | ToMemory(t: nat)
    | Refuse(t: nat)
    | Release(t: nat)
    | Leave(t: nat)
    | Forget(row: nat)
    | Crash(loaded: set<nat>)

  predicate Matches(r: Row, p: Pair, seen: nat) {
    r.pair == p && r.created + WINDOW >= seen
  }

  predicate InMemory(w: World, p: Pair) {
    exists i :: i in w.memory && i < |w.rows| && Matches(w.rows[i], p, w.now)
  }

  predicate InStore(w: World, p: Pair) {
    exists i :: 0 <= i < |w.rows| && Matches(w.rows[i], p, w.now)
  }

  /** The rows that answer a lookup at this moment. */
  function Recent(w: World, p: Pair): set<nat> {
    set i: nat | i < |w.rows| && Matches(w.rows[i], p, w.now)
  }

  function Users(w: World, obj: nat): set<nat> {
    if obj in w.users then w.users[obj] else {}
  }

  /** The request's ID, with its time, is made between lookup and insert. */
  predicate Enabled(w: World, s: Step) {
    match s
    case Tick => true
    case Call(t, _, _) => t !in w.calls
    case Lock(t) => t in w.calls && w.calls[t].Waiting? && w.calls[t].obj !in w.locked
    case FindMemory(t) => t in w.calls && w.calls[t].LookMemory?
    case FindStore(t, _) => t in w.calls && w.calls[t].LookStore?
    case Insert(t, created, stored, told) =>
      t in w.calls && w.calls[t].Create? && w.calls[t].seen <= created <= w.now && (told ==> stored)
    case ToMemory(t) => t in w.calls && w.calls[t].Publish?
    case Refuse(t) => t in w.calls && w.calls[t].Create?
    case Release(t) => t in w.calls && w.calls[t].Unlock?
    case Leave(t) => t in w.calls && w.calls[t].Leaving?
    case Forget(_) => true
    case Crash(loaded) => forall i :: i in loaded ==> i < |w.rows|
  }

  function StepCall(w: World, t: nat, pair: Pair, exec: bool): World {
    var (locks, obj) := Entered(w.locks, LockKey(pair));
    w.(locks := locks, calls := w.calls[t := Waiting(pair, obj, exec)], users := w.users[obj := Users(w, obj) + {t}])
  }

  function StepLock(w: World, t: nat): World
    requires t in w.calls && w.calls[t].Waiting?
  {
    var pc := w.calls[t];
    w.(locked := w.locked[pc.obj := t], calls := w.calls[t := LookMemory(pc.pair, pc.obj, pc.exec)])
  }

  function StepFindMemory(w: World, t: nat): World
    requires t in w.calls && w.calls[t].LookMemory?
  {
    var pc := w.calls[t];
    var next :=
      if InMemory(w, pc.pair) then Unlock(pc.pair, pc.obj)
      else if pc.exec then LookStore(pc.pair, pc.obj)
      else Create(pc.pair, pc.obj, false, w.now, false, Recent(w, pc.pair));
    w.(calls := w.calls[t := next])
  }

  function StepFindStore(w: World, t: nat, readable: bool): World
    requires t in w.calls && w.calls[t].LookStore?
  {
    var pc := w.calls[t];
    var next :=
      if readable && InStore(w, pc.pair) then Unlock(pc.pair, pc.obj)
      else Create(pc.pair, pc.obj, true, w.now, !readable, Recent(w, pc.pair));
    w.(calls := w.calls[t := next])
  }

  /** The insert is stored or not, and the call is told so or not. */
  function StepInsert(w: World, t: nat, created: nat, stored: bool, told: bool): World
    requires t in w.calls && w.calls[t].Create?
  {
    var pc := w.calls[t];
    var rows := if stored then w.rows + [Row(pc.pair, created, pc.exec, pc.seen, pc.blind, pc.hidden)] else w.rows;
    w.(rows := rows, calls := w.calls[t := if told then Publish(pc.pair, pc.obj, |w.rows|) else Unlock(pc.pair, pc.obj)])
  }

  function StepRelease(w: World, t: nat): World
    requires t in w.calls && w.calls[t].Unlock?
  {
    var pc := w.calls[t];
    w.(locked := w.locked - {pc.obj}, calls := w.calls[t := Leaving(pc.pair, pc.obj)])
  }

  function StepLeave(w: World, t: nat): World
    requires t in w.calls && w.calls[t].Leaving?
  {
    var pc := w.calls[t];
    w.(locks := Left(w.locks, LockKey(pc.pair), pc.obj), calls := w.calls - {t},
       users := w.users[pc.obj := Users(w, pc.obj) - {t}])
  }

  function Do(w: World, s: Step): World
    requires Enabled(w, s)
  {
    match s
    case Tick => w.(now := w.now + 1)
    case Call(t, pair, exec) => StepCall(w, t, pair, exec)
    case Lock(t) => StepLock(w, t)
    case FindMemory(t) => StepFindMemory(w, t)
    case FindStore(t, readable) => StepFindStore(w, t, readable)
    case Insert(t, created, stored, told) => StepInsert(w, t, created, stored, told)
    case ToMemory(t) =>
      w.(memory := w.memory + {w.calls[t].row}, calls := w.calls[t := Unlock(w.calls[t].pair, w.calls[t].obj)])
    case Refuse(t) => w.(calls := w.calls[t := Unlock(w.calls[t].pair, w.calls[t].obj)])
    case Release(t) => StepRelease(w, t)
    case Leave(t) => StepLeave(w, t)
    case Forget(row) => w.(memory := w.memory - {row})
    case Crash(loaded) => World(w.now, Locks(map[], map[], 0), map[], map[], w.rows, loaded, map[])
  }

  ghost predicate CanStep(w: World, w': World) {
    exists s :: Enabled(w, s) && w' == Do(w, s)
  }

  ghost predicate StepAt(run: seq<World>, i: nat)
    requires 0 < i < |run|
  {
    CanStep(run[i - 1], run[i])
  }

  ghost predicate IsRun(run: seq<World>) {
    && |run| > 0
    && run[0] == Init()
    && (forall i :: 0 < i < |run| ==> StepAt(run, i))
  }

  // ----- the invariant of the locks -----

  /** The key leads to the call's own lock object, which the call refers to, and a
      call inside holds it. */
  predicate CallOk(w: World, t: nat, pc: Pc) {
    && LockKey(pc.pair) in w.locks.keys && w.locks.keys[LockKey(pc.pair)] == pc.obj
    && t in Users(w, pc.obj)
    && (Holds(pc) ==> pc.obj in w.locked && w.locked[pc.obj] == t)
    && pc.obj < w.locks.next
  }

  ghost predicate ObjectOk(w: World, obj: nat) {
    && (if obj in w.locks.refs then w.locks.refs[obj] else 0) == |Users(w, obj)|
    && (forall t :: t in Users(w, obj) ==> t in w.calls && w.calls[t].obj == obj)
    && (obj in w.locked ==> w.locked[obj] in w.calls && w.calls[w.locked[obj]].obj == obj && Holds(w.calls[w.locked[obj]]))
    && (obj >= w.locks.next ==> Users(w, obj) == {})
  }

  /** A key in the map has users. */
  predicate KeyOk(w: World, key: string) {
    key in w.locks.keys ==> w.locks.keys[key] < w.locks.next && Users(w, w.locks.keys[key]) != {}
  }

  /** Different keys lead to different objects. */
  predicate KeysApart(w: World, key: string, other: string) {
    key in w.locks.keys && other in w.locks.keys && key != other ==> w.locks.keys[key] != w.locks.keys[other]
  }

  ghost predicate LocksOk(w: World) {
    && (forall t :: t in w.calls ==> CallOk(w, t, w.calls[t]))
    && (forall obj: nat :: ObjectOk(w, obj))
    && (forall key :: KeyOk(w, key))
    && (forall key, other :: KeysApart(w, key, other))
  }

  lemma CallObjects(w: World, t: nat, pair: Pair, exec: bool)
    requires LocksOk(w) && t !in w.calls
    ensures forall o: nat :: ObjectOk(StepCall(w, t, pair, exec), o)
  {
    var w', obj := StepCall(w, t, pair, exec), Entered(w.locks, LockKey(pair)).1;
    assert KeyOk(w, LockKey(pair));
    forall o: nat ensures ObjectOk(w', o) {
      assert ObjectOk(w, o);
      assert Users(w', o) == if o == obj then Users(w, o) + {t} else Users(w, o);
    }
  }

  lemma CallKeys(w: World, t: nat, pair: Pair, exec: bool)
    requires LocksOk(w) && t !in w.calls
    ensures forall k :: KeyOk(StepCall(w, t, pair, exec), k)
    ensures forall k, other :: KeysApart(StepCall(w, t, pair, exec), k, other)
  {
    var w' := StepCall(w, t, pair, exec);
    forall k ensures KeyOk(w', k) {
      assert KeyOk(w, k);
    }
    forall k, other ensures KeysApart(w', k, other) {
      assert KeysApart(w, k, other) && KeyOk(w, k) && KeyOk(w, other);
    }
  }

  lemma CallLocks(w: World, t: nat, pair: Pair, exec: bool)
    requires LocksOk(w) && t !in w.calls
    ensures LocksOk(StepCall(w, t, pair, exec))
  {
    var w' := StepCall(w, t, pair, exec);
    CallObjects(w, t, pair, exec);
    CallKeys(w, t, pair, exec);
    assert KeyOk(w, LockKey(pair));
    forall u | u in w'.calls ensures CallOk(w', u, w'.calls[u]) {
      if u != t {
        assert CallOk(w, u, w.calls[u]);
      }
    }
  }

  /** A step inside the call that keeps its object and whether it holds it. */
  lemma InsideLocks(w: World, w': World, t: nat)
    requires LocksOk(w) && t in w.calls && w'.calls.Keys == w.calls.Keys
    requires w'.locks == w.locks && w'.locked == w.locked && w'.users == w.users
    requires forall u :: u in w.calls && u != t ==> w'.calls[u] == w.calls[u]
    requires w'.calls[t].obj == w.calls[t].obj && w'.calls[t].pair == w.calls[t].pair
    requires Holds(w'.calls[t]) <==> Holds(w.calls[t])
    ensures LocksOk(w')
  {
    forall o: nat ensures ObjectOk(w', o) {
      assert ObjectOk(w, o);
    }
    forall u | u in w'.calls ensures CallOk(w', u, w'.calls[u]) {
      assert CallOk(w, u, w.calls[u]);
    }
    SameKeys(w, w');
  }

  lemma SameKeys(w: World, w': World)
    requires LocksOk(w) && w'.locks.next == w.locks.next
    requires forall k :: k in w'.locks.keys ==> k in w.locks.keys && w'.locks.keys[k] == w.locks.keys[k]
    requires forall k :: k in w'.locks.keys && Users(w, w.locks.keys[k]) != {} ==> Users(w', w.locks.keys[k]) != {}
    ensures forall k :: KeyOk(w', k)
    ensures forall k, other :: KeysApart(w', k, other)
  {
    forall k ensures KeyOk(w', k) {
      assert KeyOk(w, k);
    }
    forall k, other ensures KeysApart(w', k, other) {
      assert KeysApart(w, k, other);
    }
  }

  lemma LockLocks(w: World, t: nat)
    requires LocksOk(w) && Enabled(w, Lock(t))
    ensures LocksOk(StepLock(w, t))
  {
    var w' := StepLock(w, t);
    forall o: nat ensures ObjectOk(w', o) {
      assert ObjectOk(w, o);
    }
    forall u | u in w'.calls ensures CallOk(w', u, w'.calls[u]) {
      assert CallOk(w, u, w.calls[u]);
    }
    SameKeys(w, w');
  }

  lemma ReleaseLocks(w: World, t: nat)
    requires LocksOk(w) && Enabled(w, Release(t))
    ensures LocksOk(StepRelease(w, t))
  {
    var w' := StepRelease(w, t);
    assert CallOk(w, t, w.calls[t]);
    forall o: nat ensures ObjectOk(w', o) {
      assert ObjectOk(w, o);
    }
    forall u | u in w'.calls ensures CallOk(w', u, w'.calls[u]) {
      assert CallOk(w, u, w.calls[u]);
    }
    SameKeys(w, w');
  }

  /** The last reference: nobody else uses the key, so the map may forget it. */
  lemma LeaveLocks(w: World, t: nat)
    requires LocksOk(w) && Enabled(w, Leave(t))
    ensures LocksOk(StepLeave(w, t))
  {
    var w', obj := StepLeave(w, t), w.calls[t].obj;
    assert CallOk(w, t, w.calls[t]) && ObjectOk(w, obj);
    forall o: nat ensures ObjectOk(w', o) {
      assert ObjectOk(w, o);
    }
    forall u | u in w'.calls ensures CallOk(w', u, w'.calls[u]) {
      assert CallOk(w, u, w.calls[u]);
      if w.calls[u].obj == obj {
        assert u in Users(w, obj) - {t};
      } else {
        assert LockKey(w.calls[u].pair) != LockKey(w.calls[t].pair);
      }
    }
    forall k | k in w'.locks.keys ensures Users(w', w.locks.keys[k]) != {} {
      assert KeyOk(w, k) && KeysApart(w, k, LockKey(w.calls[t].pair));
    }
    SameKeys(w, w');
  }

  /** At most one call per key is between lock and unlock. */
  lemma OneHolder(w: World, t: nat, u: nat)
    requires LocksOk(w) && t in w.calls && u in w.calls
    requires Holds(w.calls[t]) && Holds(w.calls[u]) && LockKey(w.calls[t].pair) == LockKey(w.calls[u].pair)
    ensures t == u
  {
    assert CallOk(w, t, w.calls[t]) && CallOk(w, u, w.calls[u]);
  }

  // ----- the invariant of the rows -----

  /** Row `i` was there and recent at the lookup exactly when it is among the hidden. */
  predicate Answered(r: Row, i: nat, p: Pair, seen: nat, hidden: set<nat>) {
    r.pair == p ==> (r.created + WINDOW >= seen <==> i in hidden)
  }

  predicate CreateOk(w: World, pc: Pc) {
    pc.Create? ==>
      && pc.seen <= w.now
      && (pc.exec && !pc.blind ==> pc.hidden == {})
      && (forall i :: 0 <= i < |w.rows| ==> Answered(w.rows[i], i, pc.pair, pc.seen, pc.hidden))
      && (forall i :: i in pc.hidden ==> i < |w.rows| && w.rows[i].pair == pc.pair)
  }

  predicate RowApart(rows: seq<Row>, i: nat, j: nat)
    requires i < j < |rows|
  {
    Answered(rows[i], i, rows[j].pair, rows[j].seen, rows[j].hidden)
  }

  predicate RowOk(rows: seq<Row>, j: nat)
    requires j < |rows|
  {
    && rows[j].seen <= rows[j].created
    && (rows[j].exec && !rows[j].blind ==> rows[j].hidden == {})
    && (forall i :: i in rows[j].hidden ==> i < j && rows[i].pair == rows[j].pair)
  }

  ghost predicate RowsOk(w: World) {
    && (forall t :: t in w.calls ==> CreateOk(w, w.calls[t]))
    && (forall i, j :: 0 <= i < j < |w.rows| ==> RowApart(w.rows, i, j))
    && (forall j :: 0 <= j < |w.rows| ==> RowOk(w.rows, j))
  }

  /** Time passes, rows stay, and at most call `t` changed. */
  lemma RowsKept(w: World, w': World, t: nat)
    requires RowsOk(w) && w'.rows == w.rows && w'.now >= w.now
    requires forall u :: u in w'.calls && u != t ==> u in w.calls && w'.calls[u] == w.calls[u]
    requires t in w'.calls ==> CreateOk(w', w'.calls[t])
    ensures RowsOk(w')
  {
    forall u | u in w'.calls ensures CreateOk(w', w'.calls[u]) {
      if u != t {
        assert CreateOk(w, w.calls[u]);
      }
    }
  }

  lemma InsertRows(w: World, t: nat, created: nat, stored: bool, told: bool)
    requires LocksOk(w) && RowsOk(w) && Enabled(w, Insert(t, created, stored, told))
    ensures RowsOk(StepInsert(w, t, created, stored, told))
  {
    var w', pc := StepInsert(w, t, created, stored, told), w.calls[t];
    assert CreateOk(w, pc);
    if stored {
      forall u | u in w'.calls ensures CreateOk(w', w'.calls[u]) {
        if u != t {
          assert CreateOk(w, w.calls[u]);
          if w.calls[u].Create? && w.calls[u].pair == pc.pair {
            OneHolder(w, t, u);
          }
        }
      }
      forall i, j | 0 <= i < j < |w'.rows| ensures RowApart(w'.rows, i, j) {
        if j < |w.rows| {
          assert RowApart(w.rows, i, j);
        } else {
          assert Answered(w.rows[i], i, pc.pair, pc.seen, pc.hidden);
        }
      }
      forall j | 0 <= j < |w'.rows| ensures RowOk(w'.rows, j) {
        if j < |w.rows| {
          assert RowOk(w.rows, j);
        }
      }
    } else {
      RowsKept(w, w', t);
    }
  }

  // ----- every step -----

  ghost predicate Inv(w: World) {
    LocksOk(w) && RowsOk(w)
  }

  lemma OutsideLocks(w: World, w': World)
    requires LocksOk(w) && w'.locks == w.locks && w'.locked == w.locked && w'.users == w.users && w'.calls == w.calls
    ensures LocksOk(w')
  {
    forall o: nat ensures ObjectOk(w', o) {
      assert ObjectOk(w, o);
    }
    forall u | u in w'.calls ensures CallOk(w', u, w'.calls[u]) {
      assert CallOk(w, u, w.calls[u]);
    }
    SameKeys(w, w');
  }

  lemma LockStepInv(w: World, s: Step)
    requires Inv(w) && Enabled(w, s) && (s.Call? || s.Lock? || s.Release? || s.Leave?)
    ensures Inv(Do(w, s))
  {
    match s {
      case Call(t, pair, exec) => CallLocks(w, t, pair, exec);
      case Lock(t) => LockLocks(w, t);
      case Release(t) => ReleaseLocks(w, t);
      case Leave(t) => LeaveLocks(w, t);
    }
    RowsKept(w, Do(w, s), s.t);
  }

  /** The lookup names the rows that it should have found, none after a read of the store. */
  lemma LookupOk(w: World, s: Step)
    requires Enabled(w, s) && (s.FindMemory? || s.FindStore? || s.ToMemory? || s.Refuse?)
    ensures CreateOk(Do(w, s), Do(w, s).calls[s.t])
  {
    if s.FindStore? && s.readable && !InStore(w, w.calls[s.t].pair) {
      NothingRecent(w, w.calls[s.t].pair);
    }
  }

  lemma RecentIsInStore(w: World, p: Pair, i: nat)
    requires i in Recent(w, p)
    ensures InStore(w, p)
  {
    assert Matches(w.rows[i], p, w.now);
  }

  lemma NothingRecent(w: World, p: Pair)
    requires !InStore(w, p)
    ensures Recent(w, p) == {}
  {
    forall i: nat ensures i !in Recent(w, p) {
      if i in Recent(w, p) {
        RecentIsInStore(w, p, i);
      }
    }
  }

  lemma InsideStepInv(w: World, s: Step)
    requires Inv(w) && Enabled(w, s) && (s.FindMemory? || s.FindStore? || s.ToMemory? || s.Refuse?)
    ensures Inv(Do(w, s))
  {
    var w' := Do(w, s);
    assert w'.calls.Keys == w.calls.Keys;
    InsideLocks(w, w', s.t);
    LookupOk(w, s);
    RowsKept(w, w', s.t);
  }

  lemma InsertInv(w: World, t: nat, created: nat, stored: bool, told: bool)
    requires Inv(w) && Enabled(w, Insert(t, created, stored, told))
    ensures Inv(StepInsert(w, t, created, stored, told))
  {
    var w' := StepInsert(w, t, created, stored, told);
    assert w'.calls.Keys == w.calls.Keys;
    InsideLocks(w, w', t);
    InsertRows(w, t, created, stored, told);
  }

  lemma StepInv(w: World, s: Step)
    requires Inv(w) && Enabled(w, s)
    ensures Inv(Do(w, s))
  {
    if s.Call? || s.Lock? || s.Release? || s.Leave? {
      LockStepInv(w, s);
    } else if s.FindMemory? || s.FindStore? || s.ToMemory? || s.Refuse? {
      InsideStepInv(w, s);
    } else if s.Insert? {
      InsertInv(w, s.t, s.created, s.stored, s.told);
    } else if s.Tick? || s.Forget? {
      OutsideLocks(w, Do(w, s));
      RowsKept(w, Do(w, s), 0);
    } else {
      RowsKept(w, Do(w, s), 0);
    }
  }

  lemma {:induction false} RunInv(run: seq<World>, i: nat)
    requires IsRun(run) && i < |run|
    ensures Inv(run[i])
  {
    if i > 0 {
      RunInv(run, i - 1);
      assert StepAt(run, i);
      var s :| Enabled(run[i - 1], s) && run[i] == Do(run[i - 1], s);
      StepInv(run[i - 1], s);
    }
  }

  // ----- the theorems -----

  function FirstNul(s: string): nat {
    if s == "" || s[0] == '\0' then 0 else 1 + FirstNul(s[1..])
  }

  lemma {:induction false} NulBehind(agent: string, client: string)
    requires '\0' !in agent
    ensures FirstNul(agent + "\0" + client) == |agent|
  {
    if agent != "" {
      NulBehind(agent[1..], client);
      assert (agent + "\0" + client)[1..] == agent[1..] + "\0" + client;
    }
  }

  /** Different pairs have different lock keys, unless an agent's name contains a NUL. */
  lemma KeysTellPairsApart(p: Pair, q: Pair)
    requires '\0' !in p.agent && '\0' !in q.agent && LockKey(p) == LockKey(q)
    ensures p == q
  {
    NulBehind(p.agent, p.client);
    NulBehind(q.agent, q.client);
    var key, n := LockKey(p), |p.agent|;
    assert p.agent == key[..n] && q.agent == key[..n] && p.client == key[n + 1..] && q.client == key[n + 1..];
  }

  /** In every run at most one call per key is between lock and unlock, although
      the lock objects come and go. */
  lemma MutualExclusionPerKey(run: seq<World>, i: nat, t: nat, u: nat)
    requires IsRun(run) && i < |run| && t in run[i].calls && u in run[i].calls
    requires Holds(run[i].calls[t]) && Holds(run[i].calls[u])
    requires LockKey(run[i].calls[t].pair) == LockKey(run[i].calls[u].pair)
    ensures t == u
  {
    RunInv(run, i);
    OneHolder(run[i], t, u);
  }

  /** The map holds a key only as long as some call refers to its lock object. */
  lemma KeysAreForgotten(run: seq<World>, i: nat, key: string)
    requires IsRun(run) && i < |run| && key in run[i].locks.keys
    ensures exists t :: t in run[i].calls && run[i].calls[t].obj == run[i].locks.keys[key]
  {
    RunInv(run, i);
    var obj := run[i].locks.keys[key];
    assert KeyOk(run[i], key) && ObjectOk(run[i], obj);
    var t :| t in Users(run[i], obj);
  }

  /** execute_command never creates a request within 24 hours (86 400 000 ms) after an earlier one
      with the same agent and client_request_id, whoever created that one, across
      crashes and lost answers of the store; only a failed read of the store can
      make it do so. */
  lemma NoSecondRequestWithinADay(run: seq<World>, n: nat, i: nat, j: nat)
    requires IsRun(run) && n < |run| && i < j < |run[n].rows|
    requires run[n].rows[j].exec && !run[n].rows[j].blind && run[n].rows[i].pair == run[n].rows[j].pair
    ensures run[n].rows[j].created - run[n].rows[i].created > 86_400_000
  {
    RunInv(run, n);
    assert RowApart(run[n].rows, i, j) && RowOk(run[n].rows, j);
  }

  /** One lookup by itself; `RepeatsExactlyWhenHidden` says it for whole runs. A call goes
      on to create a request although the store holds a recent one of its pair exactly
      when, for execute_command, the read of the store fails, and, for send_line, memory
      holds none. */
  lemma GoesOnExactlyWhen(w: World, s: Step)
    requires Enabled(w, s) && (s.FindMemory? || s.FindStore?) && InStore(w, w.calls[s.t].pair)
    ensures Do(w, s).calls[s.t].Create? <==>
              if s.FindStore? then !s.readable else !w.calls[s.t].exec && !InMemory(w, w.calls[s.t].pair)
    ensures Do(w, s).calls[s.t].Create? ==> Do(w, s).calls[s.t].hidden != {}
  {
    var p := w.calls[s.t].pair;
    var i :| 0 <= i < |w.rows| && Matches(w.rows[i], p, w.now);
    assert i in Recent(w, p);
  }

  /** Somewhere in the run the lookup happened, with these rows out of memory. */
  ghost predicate LookedUp(run: seq<World>, n: nat, p: Pair, seen: nat, hidden: set<nat>)
    requires n < |run|
  {
    exists k :: 0 <= k <= n && LookedUpAt(run, k, p, seen, hidden)
  }

  ghost predicate LookedUpAt(run: seq<World>, k: nat, p: Pair, seen: nat, hidden: set<nat>)
    requires k < |run|
  {
    run[k].now == seen && hidden == Recent(run[k], p) && forall i :: i in hidden ==> i !in run[k].memory
  }

  ghost predicate Looked(run: seq<World>, n: nat)
    requires n < |run|
  {
    && (forall t :: t in run[n].calls ==> CallLooked(run, n, run[n].calls[t]))
    && (forall j :: 0 <= j < |run[n].rows| ==> RowLooked(run, n, run[n].rows[j]))
  }

  ghost predicate CallLooked(run: seq<World>, n: nat, pc: Pc)
    requires n < |run|
  {
    pc.Create? && !pc.exec ==> LookedUp(run, n, pc.pair, pc.seen, pc.hidden)
  }

  ghost predicate RowLooked(run: seq<World>, n: nat, r: Row)
    requires n < |run|
  {
    !r.exec ==> LookedUp(run, n, r.pair, r.seen, r.hidden)
  }

  lemma LookedLater(run: seq<World>, n: nat, p: Pair, seen: nat, hidden: set<nat>)
    requires n + 1 < |run| && LookedUp(run, n, p, seen, hidden)
    ensures LookedUp(run, n + 1, p, seen, hidden)
  {
    var k :| 0 <= k <= n && LookedUpAt(run, k, p, seen, hidden);
    assert LookedUpAt(run, k, p, seen, hidden);
  }

  /** A step makes at most one call ready to create, by a lookup, and at most one row,
      from such a call. */
  lemma WhereCreatesComeFrom(w: World, s: Step, t: nat)
    requires LocksOk(w) && Enabled(w, s) && t in Do(w, s).calls && Do(w, s).calls[t].Create? && !Do(w, s).calls[t].exec
    ensures || (t in w.calls && w.calls[t] == Do(w, s).calls[t])
            || (s.FindMemory? && var pc := Do(w, s).calls[t];
                pc.seen == w.now && pc.hidden == Recent(w, pc.pair) && !InMemory(w, pc.pair))
  {
  }

  lemma WhereRowsComeFrom(w: World, s: Step, j: nat)
    requires Enabled(w, s) && j < |Do(w, s).rows|
    ensures || (j < |w.rows| && w.rows[j] == Do(w, s).rows[j])
            || (s.Insert? && var pc, r := w.calls[s.t], Do(w, s).rows[j];
                r == Row(pc.pair, s.created, pc.exec, pc.seen, pc.blind, pc.hidden))
  {
  }

  lemma CallsLook(run: seq<World>, n: nat, s: Step)
    requires 0 < n < |run| && Looked(run, n - 1) && LocksOk(run[n - 1])
    requires Enabled(run[n - 1], s) && run[n] == Do(run[n - 1], s)
    ensures forall t :: t in run[n].calls ==> CallLooked(run, n, run[n].calls[t])
  {
    var w := run[n - 1];
    forall t | t in run[n].calls && run[n].calls[t].Create? && !run[n].calls[t].exec
      ensures CallLooked(run, n, run[n].calls[t])
    {
      var pc := run[n].calls[t];
      WhereCreatesComeFrom(w, s, t);
      if t in w.calls && w.calls[t] == pc {
        assert CallLooked(run, n - 1, pc);
        LookedLater(run, n - 1, pc.pair, pc.seen, pc.hidden);
      } else {
        assert LookedUpAt(run, n - 1, pc.pair, pc.seen, pc.hidden);
      }
    }
  }

  lemma RowsLook(run: seq<World>, n: nat, s: Step)
    requires 0 < n < |run| && Looked(run, n - 1)
    requires Enabled(run[n - 1], s) && run[n] == Do(run[n - 1], s)
    ensures forall j :: 0 <= j < |run[n].rows| ==> RowLooked(run, n, run[n].rows[j])
  {
    var w := run[n - 1];
    forall j | 0 <= j < |run[n].rows| && !run[n].rows[j].exec ensures RowLooked(run, n, run[n].rows[j]) {
      var r := run[n].rows[j];
      WhereRowsComeFrom(w, s, j);
      if j < |w.rows| && w.rows[j] == r {
        assert RowLooked(run, n - 1, r);
      } else {
        assert CallLooked(run, n - 1, w.calls[s.t]);
      }
      LookedLater(run, n - 1, r.pair, r.seen, r.hidden);
    }
  }

  lemma {:induction false} RunLooked(run: seq<World>, n: nat)
    requires IsRun(run) && n < |run|
    ensures Looked(run, n)
  {
    if n > 0 {
      RunLooked(run, n - 1);
      RunInv(run, n - 1);
      assert StepAt(run, n);
      var s :| Enabled(run[n - 1], s) && run[n] == Do(run[n - 1], s);
      CallsLook(run, n, s);
      RowsLook(run, n, s);
    }
  }

  /** A later request of the same pair is a repeat, measured at its lookup, exactly when
      the lookup should have found the earlier one and did not. Then execute_command
      could not read the store, and send_line did not have the earlier one in memory;
      in between the lock lets nobody else create one. */
  lemma RepeatsExactlyWhenHidden(run: seq<World>, n: nat, i: nat, j: nat)
    requires IsRun(run) && n < |run| && i < j < |run[n].rows| && run[n].rows[i].pair == run[n].rows[j].pair
    ensures var r := run[n].rows[j];
            && (run[n].rows[i].created + 86_400_000 >= r.seen <==> i in r.hidden)
            && (i in r.hidden && r.exec ==> r.blind)
            && (i in r.hidden && !r.exec ==>
                  exists k :: 0 <= k <= n && run[k].now == r.seen && i in Recent(run[k], r.pair) && i !in run[k].memory)
  {
    RunInv(run, n);
    RunLooked(run, n);
    var r := run[n].rows[j];
    assert RowApart(run[n].rows, i, j) && RowOk(run[n].rows, j);
    if i in r.hidden && !r.exec {
      assert RowLooked(run, n, r);
      var k :| 0 <= k <= n && LookedUpAt(run, k, r.pair, r.seen, r.hidden);
      assert run[k].now == r.seen && i in Recent(run[k], r.pair) && i !in run[k].memory;
    }
  }

  lemma Extend(run: seq<World>, s: Step) returns (longer: seq<World>)
    requires IsRun(run) && Enabled(run[|run| - 1], s)
    ensures IsRun(longer) && |longer| == |run| + 1 && longer[|run|] == Do(run[|run| - 1], s)
  {
    longer := run + [Do(run[|run| - 1], s)];
    assert longer[0] == run[0];
    forall i | 0 < i < |longer| ensures StepAt(longer, i) {
      if i < |run| {
        assert StepAt(run, i);
      }
    }
  }

  lemma FirstRequest(pair: Pair) returns (run: seq<World>)
    ensures IsRun(run)
    ensures var w := run[|run| - 1];
            w == World(0, Locks(map[], map[], 0), map[], map[], [Row(pair, 0, true, 0, false, {})], {}, map[])
  {
    run := [Init()];
    run := Extend(run, Call(0, pair, true));
    run := Extend(run, Lock(0));
    run := Extend(run, FindMemory(0));
    NothingRecent(run[|run| - 1], pair);
    run := Extend(run, FindStore(0, true));
    run := Extend(run, Insert(0, 0, true, true));
    run := Extend(run, Crash({}));
  }

  /** After a restart that did not load the first request, a failed read of the
      store lets a second one be created at once. */
  lemma FailedReadRepeats(pair: Pair) returns (run: seq<World>)
    ensures IsRun(run)
    ensures var rows := run[|run| - 1].rows;
            |rows| == 2 && rows[0].pair == rows[1].pair == pair && rows[0].created == rows[1].created
            && rows[0].exec && rows[1].exec
  {
    run := FirstRequest(pair);
    run := Extend(run, Call(0, pair, true));
    run := Extend(run, Lock(0));
    run := Extend(run, FindMemory(0));
    run := Extend(run, FindStore(0, false));
    run := Extend(run, Insert(0, 0, true, true));
  }

  /** The same restart lets send_line repeat the request, although the store can be read. */
  lemma ForgottenRequestRepeats(pair: Pair) returns (run: seq<World>)
    ensures IsRun(run)
    ensures var rows := run[|run| - 1].rows;
            |rows| == 2 && rows[0].pair == rows[1].pair == pair && rows[0].created == rows[1].created
            && !rows[1].exec
  {
    run := FirstRequest(pair);
    run := Extend(run, Call(0, pair, false));
    run := Extend(run, Lock(0));
    run := Extend(run, FindMemory(0));
    run := Extend(run, Insert(0, 0, true, true));
  }
}
