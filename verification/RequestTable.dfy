/**
 The request table in memory and in the store, and the registry of executions
 (`transitionRequest`, `finalizeRequest`, `recordCommandRequest`,
 `DeleteCommandRequest`, `execReservation`, approval.go and app.go; the
 conditional updates of storage.go).

 Memory is lost in a crash, the store is not. A write to the store may fail, or
 may be applied although the caller is told that it failed.
 */
module RequestTable {
  import opened LineTypes

  datatype Weather = Fine | Fails | LostReply

  datatype Answer = Stored | Conflict | Failed

  datatype Row = Row(status: Status, deleted: bool)

  datatype Tables = Tables(mem: map<RequestId, Status>, db: map<RequestId, Row>)

  predicate Final(s: Status) {
    s != ReqPending && !Executing(s)
  }

  // ----- the store -----

  predicate Hits(db: map<RequestId, Row>, id: RequestId, from: Status) {
    id in db && db[id].status == from
  }

  /** What a write answers when its condition holds, or does not hold. */
  function AnswerOf(hit: bool, weather: Weather): Answer {
    if weather != Fine then Failed else if hit then Stored else Conflict
  }

  /** `updateCommandRequestFrom`: a compare-and-swap on the stored status. */
  function StoreCas(db: map<RequestId, Row>, id: RequestId, from: Status, to: Status, weather: Weather)
    : (map<RequestId, Row>, Answer)
  {
    (if weather != Fails && Hits(db, id, from) then db[id := db[id].(status := to)] else db,
     AnswerOf(Hits(db, id, from), weather))
  }

  function StoreInsert(db: map<RequestId, Row>, id: RequestId, status: Status, weather: Weather)
    : (map<RequestId, Row>, Answer)
  {
    (if weather != Fails then db[id := Row(status, false)] else db, AnswerOf(true, weather))
  }

  predicate Deletable(db: map<RequestId, Row>, id: RequestId) {
    id in db && !db[id].deleted && !Executing(db[id].status)
  }

  /** `deleteCommandRequestUnlessRunning`. */
  function StoreDelete(db: map<RequestId, Row>, id: RequestId, weather: Weather): (map<RequestId, Row>, Answer) {
    (if weather != Fails && Deletable(db, id) then db[id := db[id].(deleted := true)] else db,
     AnswerOf(Deletable(db, id), weather))
  }

  /** `recoverInterruptedRequests`: one statement for all rows. */
  function Recovered(db: map<RequestId, Row>, weather: Weather): map<RequestId, Row> {
    if weather == Fails then db
    else map id | id in db :: if Executing(db[id].status) then db[id].(status := ReqInterrupted) else db[id]
  }

  // ----- memory and store together -----

  datatype Verdict = Won | NotFound | WrongState | NotStored

  /** `transitionRequest`: refused unless the store took the change. */
  function Transition(tb: Tables, id: RequestId, from: set<Status>, to: Status, weather: Weather): (Tables, Verdict) {
    if id !in tb.mem then (tb, NotFound)
    else if tb.mem[id] !in from then (tb, WrongState)
    else
      var (db, answer) := StoreCas(tb.db, id, tb.mem[id], to, weather);
      if answer == Stored then (Tables(tb.mem[id := to], db), Won)
      else (Tables(tb.mem, db), if answer == Conflict then WrongState else NotStored)
  }

  /** Another writer's row takes the place of the outcome. */
  predicate Adopts(db: map<RequestId, Row>, id: RequestId, from: Status, answer: Answer, looks: bool) {
    answer == Conflict && looks && id in db && !db[id].deleted && db[id].status != from
  }

  /** The outcome is published whatever the store says, unless another writer's row
      is adopted. `looks` says that reading that row works. */
  function Published(tb: Tables, id: RequestId, from: Status, to: Status, weather: Weather, looks: bool): (Tables, Verdict) {
    var (db, answer) := StoreCas(tb.db, id, from, to, weather);
    if Adopts(db, id, from, answer, looks) then (Tables(tb.mem[id := db[id].status], db), WrongState)
    else (Tables(tb.mem[id := to], db), if answer == Stored then Won else NotStored)
  }

  /** `finalizeRequest`. */
  function Finalize(tb: Tables, id: RequestId, from: Status, to: Status, weather: Weather, looks: bool): (Tables, Verdict) {
    if id !in tb.mem then (tb, NotFound)
    else if tb.mem[id] != from then (tb, WrongState)
    else Published(tb, id, from, to, weather, looks)
  }

  /** `DeleteCommandRequest`. */
  function Delete(tb: Tables, id: RequestId, weather: Weather, looks: bool): Tables {
    if id !in tb.mem || Executing(tb.mem[id]) then tb
    else
      var (db, answer) := StoreDelete(tb.db, id, weather);
      var gone := answer == Stored || (answer == Conflict && looks && (id !in db || db[id].deleted));
      Tables(if gone then tb.mem - {id} else tb.mem, db)
  }

  // ----- what the operations mean -----

  predicate Stores(db: map<RequestId, Row>, id: RequestId, status: Status) {
    id in db && db[id].status == status
  }

  /** A compare-and-swap: applied exactly when the stored status is the expected one and
      the write does not fail, and it answers so unless the reply is lost. */
  lemma StoreCasMeans(db: map<RequestId, Row>, id: RequestId, from: Status, to: Status, weather: Weather)
    ensures var (db', answer) := StoreCas(db, id, from, to, weather);
            && db' == (if Stores(db, id, from) && weather != Fails then db[id := Row(to, db[id].deleted)] else db)
            && (answer == Stored <==> weather == Fine && Stores(db, id, from))
            && (answer == Conflict <==> weather == Fine && !Stores(db, id, from))
  {
  }

  lemma StoreInsertMeans(db: map<RequestId, Row>, id: RequestId, status: Status, weather: Weather)
    ensures var (db', answer) := StoreInsert(db, id, status, weather);
            && db' == (if weather == Fails then db else db[id := Row(status, false)])
            && answer == (if weather == Fine then Stored else Failed)
  {
  }

  /** A transition is won exactly when memory shows an expected status, the store shows the
      same one and the write succeeds; then both show the new one. Otherwise memory stays,
      and the store changes only when it took the write and the reply was lost. */
  lemma TransitionMeans(tb: Tables, id: RequestId, from: set<Status>, to: Status, weather: Weather)
    ensures var (tb', v) := Transition(tb, id, from, to, weather);
            var eligible := id in tb.mem && tb.mem[id] in from && Stores(tb.db, id, tb.mem[id]);
            && (v == Won <==> eligible && weather == Fine)
            && (v == NotFound <==> id !in tb.mem)
            && (v == NotStored <==> id in tb.mem && tb.mem[id] in from && weather != Fine)
            && tb'.mem == (if v == Won then tb.mem[id := to] else tb.mem)
            && tb'.db == (if eligible && weather != Fails then tb.db[id := Row(to, tb.db[id].deleted)] else tb.db)
  {
    if id in tb.mem {
      StoreCasMeans(tb.db, id, tb.mem[id], to, weather);
    }
  }

  /** Another process wrote the row, and it can be read. */
  predicate ForeignRow(db: map<RequestId, Row>, id: RequestId, from: Status, weather: Weather, looks: bool) {
    weather == Fine && looks && id in db && db[id].status != from && !db[id].deleted
  }

  /** When memory shows `from`, afterwards it shows `to`, or the stored status that another
      process wrote; the store shows `to` exactly when it showed `from` and the write was
      applied; nothing else changes. */
  lemma FinalizeMeans(tb: Tables, id: RequestId, from: Status, to: Status, weather: Weather, looks: bool)
    ensures var (tb', v) := Finalize(tb, id, from, to, weather, looks);
            if id !in tb.mem || tb.mem[id] != from then
              tb' == tb && v == (if id in tb.mem then WrongState else NotFound)
            else
              && (v == Won <==> weather == Fine && Stores(tb.db, id, from))
              && (v == WrongState <==> ForeignRow(tb.db, id, from, weather, looks))
              && tb'.mem == tb.mem[id := if v == WrongState then tb.db[id].status else to]
              && tb'.db == (if Stores(tb.db, id, from) && weather != Fails then tb.db[id := Row(to, tb.db[id].deleted)]
                            else tb.db)
  {
    StoreCasMeans(tb.db, id, from, to, weather);
  }

  /** A request that does not run is deleted: the row gets its mark, and memory forgets the
      request when the store says so or no longer has the row. */
  lemma DeleteMeans(tb: Tables, id: RequestId, weather: Weather, looks: bool)
    ensures var tb' := Delete(tb, id, weather, looks);
            var idle := id in tb.mem && tb.mem[id] != ReqRunning && tb.mem[id] != ReqAutoRunning;
            var there := id in tb.db && !tb.db[id].deleted;
            var runs := id in tb.db && (tb.db[id].status == ReqRunning || tb.db[id].status == ReqAutoRunning);
            && tb'.db == (if idle && there && !runs && weather != Fails then tb.db[id := Row(tb.db[id].status, true)]
                          else tb.db)
            && tb'.mem == (if idle && weather == Fine && (if there then !runs else looks) then tb.mem - {id} else tb.mem)
  {
  }

  /** Start-up recovery: every row that was running is interrupted, and no other changes. */
  lemma RecoveredMeans(db: map<RequestId, Row>, weather: Weather)
    ensures Recovered(db, weather).Keys == db.Keys
    ensures forall id :: id in db ==>
              var runs := db[id].status == ReqRunning || db[id].status == ReqAutoRunning;
              Recovered(db, weather)[id] == if weather != Fails && runs then Row(ReqInterrupted, db[id].deleted) else db[id]
  {
  }

  // ----- the table object -----

  datatype Request = Request(id: RequestId, status: Status)

  ghost predicate Distinct(requests: seq<Request>) {
    forall i, j :: 0 <= i < j < |requests| ==> requests[i].id != requests[j].id
  }

  ghost function Listed(requests: seq<Request>): map<RequestId, Status> {
    if requests == [] then map[] else Listed(requests[1..])[requests[0].id := requests[0].status]
  }

  lemma {:induction false} ListedAt(requests: seq<Request>, i: nat)
    requires i < |requests| && Distinct(requests)
    ensures requests[i].id in Listed(requests) && Listed(requests)[requests[i].id] == requests[i].status
  {
    if i > 0 {
      ListedAt(requests[1..], i - 1);
      assert requests[1..][i - 1] == requests[i];
      assert requests[0].id != requests[i].id;
    }
  }

  lemma {:induction false} ListedOnly(requests: seq<Request>, id: RequestId)
    requires forall i :: 0 <= i < |requests| ==> requests[i].id != id
    ensures id !in Listed(requests)
  {
    if requests != [] {
      assert forall i :: 0 <= i < |requests| - 1 ==> requests[1..][i] == requests[i + 1];
      ListedOnly(requests[1..], id);
    }
  }

  lemma {:induction false} ListedUpdate(requests: seq<Request>, i: nat, status: Status)
    requires i < |requests| && Distinct(requests)
    ensures var updated := requests[i := requests[i].(status := status)];
            Distinct(updated) && Listed(updated) == Listed(requests)[requests[i].id := status]
  {
    var id := requests[i].id;
    var updated := requests[i := requests[i].(status := status)];
    if i == 0 {
      assert updated[1..] == requests[1..];
    } else {
      ListedUpdate(requests[1..], i - 1, status);
      assert updated[1..] == requests[1..][i - 1 := requests[1..][i - 1].(status := status)];
      assert requests[0].id != id;
    }
  }

  lemma {:induction false} ListedRemove(requests: seq<Request>, i: nat)
    requires i < |requests| && Distinct(requests)
    ensures var rest := requests[..i] + requests[i + 1..];
            Distinct(rest) && Listed(rest) == Listed(requests) - {requests[i].id}
  {
    var rest := requests[..i] + requests[i + 1..];
    if i == 0 {
      assert rest == requests[1..];
      ListedOnly(rest, requests[0].id);
    } else {
      ListedRemove(requests[1..], i - 1);
      assert rest[1..] == requests[1..][..i - 1] + requests[1..][i..];
      assert rest[0] == requests[0] && requests[0].id != requests[i].id;
    }
  }

  class RequestList {
    /** Newest first. */
    var requests: seq<Request>
    /** What the store holds. */
    var db: map<RequestId, Row>

    ghost predicate Valid()
      reads this
    {
      Distinct(requests)
    }

    ghost function View(): Tables
      reads this
    {
      Tables(Listed(requests), db)
    }

    constructor ()
      ensures Valid() && View() == Tables(map[], map[])
    {
      requests, db := [], map[];
    }

    method IndexOf(id: RequestId) returns (index: int)
      requires Valid()
      ensures -1 <= index < |requests|
      ensures index < 0 <==> id !in Listed(requests)
      ensures index >= 0 ==> requests[index].id == id && Listed(requests)[id] == requests[index].status
    {
      index := 0;
      while index < |requests|
        invariant 0 <= index <= |requests|
        invariant forall i :: 0 <= i < index ==> requests[i].id != id
      {
        if requests[index].id == id {
          ListedAt(requests, index);
          return;
        }
        index := index + 1;
      }
      ListedOnly(requests, id);
      return -1;
    }

    /** `recordCommandRequest`, first half: the row. */
    method Insert(id: RequestId, status: Status, weather: Weather) returns (answer: Answer)
      requires Valid()
      modifies this`db
      ensures Valid()
      ensures (db, answer) == StoreInsert(old(db), id, status, weather)
    {
      var stored := StoreInsert(db, id, status, weather);
      db, answer := stored.0, stored.1;
    }

    /** Second half: the entry in memory. */
    method Publish(id: RequestId, status: Status)
      requires Valid() && id !in Listed(requests)
      modifies this`requests
      ensures Valid()
      ensures View() == old(View()).(mem := old(View()).mem[id := status])
    {
      forall i | 0 <= i < |requests| ensures requests[i].id != id {
        ListedAt(requests, i);
      }
      requests := [Request(id, status)] + requests;
    }

    /** `updateCommandRequestFrom`. */
    method UpdateFrom(id: RequestId, from: Status, to: Status, weather: Weather) returns (answer: Answer)
      modifies this`db
      ensures (db, answer) == StoreCas(old(db), id, from, to, weather)
    {
      var hit := id in db && db[id].status == from;
      if weather == Fails {
        return Failed;
      }
      if hit {
        db := db[id := db[id].(status := to)];
      }
      answer := if weather == LostReply then Failed else if hit then Stored else Conflict;
    }

    method SetStatus(index: nat, status: Status)
      requires Valid() && index < |requests|
      modifies this`requests
      ensures Valid() && Listed(requests) == old(Listed(requests))[old(requests[index]).id := status]
    {
      ListedUpdate(requests, index, status);
      requests := requests[index := requests[index].(status := status)];
    }

    method TransitionRequest(id: RequestId, from: set<Status>, to: Status, weather: Weather) returns (v: Verdict)
      requires Valid()
      modifies this
      ensures Valid()
      ensures (View(), v) == Transition(old(View()), id, from, to, weather)
    {
      var index := IndexOf(id);
      if index < 0 {
        return NotFound;
      }
      var current := requests[index];
      if current.status !in from {
        return WrongState;
      }
      var answer := UpdateFrom(id, current.status, to, weather);
      if answer != Stored {
        return if answer == Conflict then WrongState else NotStored;
      }
      SetStatus(index, to);
      v := Won;
    }

    method FinalizeRequest(id: RequestId, from: Status, to: Status, weather: Weather, looks: bool) returns (v: Verdict)
      requires Valid()
      modifies this
      ensures Valid()
      ensures View() == Finalize(old(View()), id, from, to, weather, looks).0
      ensures v == Finalize(old(View()), id, from, to, weather, looks).1
    {
      var index := IndexOf(id);
      if index < 0 {
        return NotFound;
      }
      if requests[index].status != from {
        return WrongState;
      }
      v := PublishOutcome(index, from, to, weather, looks);
    }

    method PublishOutcome(index: nat, from: Status, to: Status, weather: Weather, looks: bool) returns (v: Verdict)
      requires Valid() && index < |requests|
      modifies this
      ensures Valid()
      ensures View() == Published(old(View()), old(requests[index].id), from, to, weather, looks).0
      ensures v == Published(old(View()), old(requests[index].id), from, to, weather, looks).1
    {
      var id := requests[index].id;
      var answer := UpdateFrom(id, from, to, weather);
      var adopts := Adopts(db, id, from, answer, looks);
      SetStatus(index, if adopts then db[id].status else to);
      v := if adopts then WrongState else if answer == Stored then Won else NotStored;
    }

    method DeleteRequest(id: RequestId, weather: Weather, looks: bool)
      requires Valid()
      modifies this
      ensures Valid()
      ensures View() == Delete(old(View()), id, weather, looks)
    {
      var index := IndexOf(id);
      if index < 0 || Executing(requests[index].status) {
        return;
      }
      var stored := StoreDelete(db, id, weather);
      db := stored.0;
      if stored.1 == Conflict {
        if !looks || (id in db && !db[id].deleted) {
          return;
        }
      } else if stored.1 == Failed {
        return;
      }
      ListedRemove(requests, index);
      requests := requests[..index] + requests[index + 1..];
    }
  }

  // ----- executions -----

  /** `wg` is the wait count of the drain. */
  datatype Execs = Execs(closed: bool, keys: set<nat>, last: nat, wg: int)

  /** `reserveExec`: the key, or None once intake is closed. */
  function Reserve(e: Execs): (Execs, Option<nat>) {
    if e.closed then (e, None)
    else (e.(keys := e.keys + {e.last + 1}, last := e.last + 1, wg := e.wg + 1), Some(e.last + 1))
  }

  class ExecRegistry {
    var closed: bool
    var keys: set<nat>
    var last: nat
    var wg: int

    ghost function View(): Execs
      reads this
    {
      Execs(closed, keys, last, wg)
    }

    constructor ()
      ensures View() == Execs(false, {}, 0, 0)
    {
      closed, keys, last, wg := false, {}, 0, 0;
    }

    /** `stopped` says that the application's context is cancelled. */
    method ReserveExec(stopped: bool) returns (key: Option<nat>)
      modifies this
      ensures key.Some? <==> !stopped && !old(closed)
      ensures View() == if stopped then old(View()) else Reserve(old(View())).0
      ensures key.Some? ==> key == Reserve(old(View())).1
      ensures key.Some? ==> key.value == last == old(last) + 1 && keys == old(keys) + {last} && wg == old(wg) + 1
      ensures key.None? ==> last == old(last) && keys == old(keys) && wg == old(wg)
      ensures closed == old(closed)
    {
      if closed || stopped {
        return None;
      }
      last := last + 1;
      keys := keys + {last};
      wg := wg + 1;
      key := Some(last);
    }

    /** Only afterwards, in a second step, is the wait count lowered. */
    method Unregister(key: nat)
      modifies this`keys
      ensures View() == old(View()).(keys := old(keys) - {key})
    {
      keys := keys - {key};
    }

    method Done()
      modifies this`wg
      ensures View() == old(View()).(wg := old(wg) - 1)
    {
      wg := wg - 1;
    }

    method CloseIntake()
      modifies this`closed
      ensures View() == old(View()).(closed := true)
    {
      closed := true;
    }
  }
}
