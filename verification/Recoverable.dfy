/** Which instances recovery reaches: ListRecoverableInstances (store/postgres.go) lists those that have not ended and are
    not locked, oldest change first, and Recover (engine/engine.go) puts at most 500 of them on the stream. */
module Recoverable {
  import opened Workflow
  import opened Selection
  import opened Rows
  import Workers

  /** An instance in the table. `updatedAt` is when its row was last saved; claims and releases do not touch it. */
  datatype Place = Place(row: Row, lockedUntil: Option<int>, updatedAt: int)

  type Table = map<string, Place>

  const RECOVERY_LIMIT := 500
  const LIST_LIMIT := 100

  predicate IsUnlocked(place: Place, now: int) {
    place.lockedUntil.None? || place.lockedUntil.value <= now
  }

  function RecoverableIds(rows: Table, now: int): set<string> {
    set id | id in rows && !Terminal(rows[id].row) && IsUnlocked(rows[id], now)
  }

  function UpdateTimes(rows: Table): Times {
    map id | id in rows :: rows[id].updatedAt
  }

  /** What one call may list: the oldest of the recoverable instances up to the limit, ties broken in any way. */
  ghost predicate MayList(rows: Table, now: int, limit: nat, listed: set<string>) {
    IsEarliest(UpdateTimes(rows), RecoverableIds(rows, now), limit, listed)
  }

  /** `ids` lists instances that have not ended and that nobody has locked, each once, oldest change first, as many as
      allowed; none that is left out is older, and if fewer are listed than allowed none is left out. */
  predicate ListsOldest(rows: Table, now: int, limit: int, ids: seq<string>) {
    && |ids| <= limit
    && (forall i :: 0 <= i < |ids| ==> ids[i] in rows && IsOpen(rows[ids[i]], now))
    && (forall i, j :: 0 <= i < j < |ids| ==> ids[i] != ids[j] && rows[ids[i]].updatedAt <= rows[ids[j]].updatedAt)
    && (forall id, i :: id in rows && IsOpen(rows[id], now) && id !in ids && 0 <= i < |ids| ==>
          rows[ids[i]].updatedAt <= rows[id].updatedAt)
    && (|ids| < limit ==> forall id :: id in rows && IsOpen(rows[id], now) ==> id in ids)
  }

  predicate IsOpen(place: Place, now: int) {
    place.row.status != InstCompleted && place.row.status != InstFailed &&
    (place.lockedUntil == None || place.lockedUntil.value <= now)
  }

  lemma ListedAreOldest(rows: Table, now: int, limit: nat, ids: seq<string>)
    requires MayList(rows, now, limit, Members(ids)) && NoRepeat(ids) && Sorted(UpdateTimes(rows), ids)
    ensures ListsOldest(rows, now, limit, ids)
  {
    MembersCount(ids);
    assert forall id :: id in ids <==> id in Members(ids);
    assert forall i :: 0 <= i < |ids| ==> ids[i] in ids;
    OpenIsRecoverable(rows, now);
    if |ids| < limit {
      SameCount(Members(ids), RecoverableIds(rows, now));
    }
    forall id, i | id in rows && IsOpen(rows[id], now) && id !in ids && 0 <= i < |ids|
      ensures ids[i] in rows && rows[ids[i]].updatedAt <= rows[id].updatedAt
    {
      assert id in RecoverableIds(rows, now) - Members(ids);
    }
  }

  lemma OpenIsRecoverable(rows: Table, now: int)
    ensures forall id :: id in RecoverableIds(rows, now) <==> id in rows && IsOpen(rows[id], now)
  {
  }

  lemma OpenAre(rows: Table, now: int)
    ensures OpenOf(rows, now) ==
      set id | id in rows && rows[id].row.status != InstCompleted && rows[id].row.status != InstFailed &&
        (rows[id].lockedUntil == None || rows[id].lockedUntil.value <= now)
  {
  }

  lemma SameCount(a: set<string>, b: set<string>)
    requires a <= b && |a| == |b|
    ensures a == b
  {
    assert b == a + (b - a);
  }

  function OpenOf(rows: Table, now: int): set<string> {
    set id | id in rows && IsOpen(rows[id], now)
  }

  /** With at most 500 open and unlocked instances all of them are listed. */
  lemma FewAreListed(rows: Table, now: int, ids: seq<string>)
    requires ListsOldest(rows, now, 500, ids)
    requires |OpenOf(rows, now)| <= 500
    ensures OpenOf(rows, now) <= Members(ids)
  {
    var open := OpenOf(rows, now);
    MembersCount(ids);
    if id :| id in open && id !in ids {
      SubsetCount(Members(ids) + {id}, open);
    }
  }

  /** The store and the stream. `faults` counts the calls that failed. */
  class Store {
    var rows: Table
    var stream: seq<string>
    ghost var faults: nat

    constructor ()
      ensures rows == map[] && stream == [] && faults == 0
    {
      rows, stream, faults := map[], [], 0;
    }

    method ListRecoverable(limit: int, now: int) returns (ok: bool, ids: seq<string>)
      modifies this`faults
      ensures faults >= old(faults) && (faults == old(faults) ==> ok)
      ensures ok ==> ListsOldest(rows, now, if limit <= 0 then 100 else limit, ids)
      ensures ok ==> MayList(rows, now, if limit <= 0 then LIST_LIMIT else limit, Members(ids))
      ensures ok ==> NoRepeat(ids) && Sorted(UpdateTimes(rows), ids)
    {
      ok := *;
      ids := [];
      if !ok {
        faults := faults + 1;
        return;
      }
      var most: nat := if limit <= 0 then LIST_LIMIT else limit;
      ids := EarliestFirst(UpdateTimes(rows), RecoverableIds(rows, now), most);
      ListedAreOldest(rows, now, most, ids);
    }

    method Enqueue(id: string) returns (ok: bool)
      modifies this`stream, this`faults
      ensures faults >= old(faults) && (faults == old(faults) ==> ok)
      ensures stream == old(stream) + [id] || (!ok && stream == old(stream))
    {
      ok := false;
      var lost: bool := *;
      if !lost {
        stream := stream + [id];
        ok := *;
      }
      faults := if ok then faults else faults + 1;
    }

    /** One recovery: lists, and enqueues one after the other up to the first failure. */
    method Recover(now: int) returns (ok: bool, ghost listed: seq<string>, ghost done: nat)
      modifies this`stream, this`faults
      ensures faults >= old(faults) && (faults == old(faults) ==> ok)
      ensures done <= |listed| && stream == old(stream) + listed[..done]
      ensures listed == [] || ListsOldest(rows, now, 500, listed)
      ensures ok ==> done == |listed| && ListsOldest(rows, now, 500, listed)
      ensures
        var open := set id | id in rows && rows[id].row.status != InstCompleted && rows[id].row.status != InstFailed &&
          (rows[id].lockedUntil == None || rows[id].lockedUntil.value <= now);
        ok && |open| <= 500 ==> forall id :: id in open ==> id in stream
      ensures listed == [] || MayList(rows, now, RECOVERY_LIMIT, Members(listed))
      ensures ok ==> MayList(rows, now, RECOVERY_LIMIT, Members(listed))
    {
      hide MayList, NoRepeat, Sorted, ListsOldest, OpenOf;
      listed, done := [], 0;
      var ids;
      ok, ids := ListRecoverable(RECOVERY_LIMIT, now);
      if !ok {
        return;
      }
      listed := ids;
      for i := 0 to |ids|
        modifies this`stream, this`faults
        invariant stream == old(stream) + ids[..i] && done == i && faults >= old(faults)
      {
        assert ids[..i + 1] == ids[..i] + [ids[i]];
        ghost var before := stream;
        ok := Enqueue(ids[i]);
        if stream != before {
          done := i + 1;
        }
        if !ok {
          return;
        }
      }
      assert ids[..|ids|] == ids;
      if |OpenOf(rows, now)| <= 500 {
        FewAreListed(rows, now, ids);
      }
      OpenAre(rows, now);
      ok := true;
    }
  }

  /** A recovery without failures may enqueue an instance if and only if fewer than 500 recoverable ones are older. */
  lemma MayBeRecoveredIff(rows: Table, now: int, id: string)
    requires id in RecoverableIds(rows, now)
    ensures (exists listed :: MayList(rows, now, RECOVERY_LIMIT, listed) && id in listed) <==>
      |Older(UpdateTimes(rows), RecoverableIds(rows, now), id)| < RECOVERY_LIMIT
  {
    var at, all := UpdateTimes(rows), RecoverableIds(rows, now);
    MayBeChosenIff(at, all, RECOVERY_LIMIT, id);
    hide IsEarliest, Older;
    if chosen :| IsEarliest(at, all, RECOVERY_LIMIT, chosen) && id in chosen {
      assert MayList(rows, now, RECOVERY_LIMIT, chosen);
    }
  }

  /** And it enqueues the instance for certain if and only if fewer than 500 others are older or as old. */
  lemma MustBeRecoveredIff(rows: Table, now: int, id: string)
    requires id in RecoverableIds(rows, now)
    ensures (forall listed :: MayList(rows, now, RECOVERY_LIMIT, listed) ==> id in listed) <==>
      |NotYounger(UpdateTimes(rows), RecoverableIds(rows, now), id)| < RECOVERY_LIMIT
  {
    var at, all := UpdateTimes(rows), RecoverableIds(rows, now);
    MustBeChosenIff(at, all, RECOVERY_LIMIT, id);
    hide IsEarliest, NotYounger;
    if forall listed :: MayList(rows, now, RECOVERY_LIMIT, listed) ==> id in listed {
      forall chosen | IsEarliest(at, all, RECOVERY_LIMIT, chosen) ensures id in chosen {
        assert MayList(rows, now, RECOVERY_LIMIT, chosen);
      }
    }
  }

  /** With at most 500 recoverable instances every one is enqueued. */
  lemma FewAreAllRecovered(rows: Table, now: int, listed: set<string>, id: string)
    requires |RecoverableIds(rows, now)| <= RECOVERY_LIMIT && MayList(rows, now, RECOVERY_LIMIT, listed)
    ensures id in RecoverableIds(rows, now) ==> id in listed
  {
    var at, all := UpdateTimes(rows), RecoverableIds(rows, now);
    if id in all {
      SubsetCount(NotYounger(at, all, id), all - {id});
      FewNotYoungerIsChosen(at, all, RECOVERY_LIMIT, listed, id);
    }
  }

  /** What workers do to the table. `Save` is the commit of a worker; it comes only when the wait of the row is over. A
      worker that finds the row still waiting claims it, arms the timer and releases it. */
  datatype Op = Lock(id: string, until: int) | Unlock(id: string) | Save(id: string, row: Row)

  predicate CanApply(rows: Table, now: int, op: Op) {
    op.id in rows && (op.Save? ==> Workers.WaitIsOver(rows[op.id].row, now))
  }

  function Apply(rows: Table, now: int, op: Op): Table
    requires op.id in rows
  {
    match op
    case Lock(id, until) => rows[id := rows[id].(lockedUntil := Some(until))]
    case Unlock(id) => rows[id := rows[id].(lockedUntil := None)]
    case Save(id, row) => rows[id := rows[id].(row := row, updatedAt := now)]
  }

  datatype Moment = Moment(now: int, op: Op)

  /** The moments, none before `start` or after `end`, lead from `rows` to `after`. */
  ghost predicate Becomes(rows: Table, start: int, moments: seq<Moment>, end: int, after: Table)
    decreases |moments|
  {
    if moments == [] then after == rows && start <= end
    else
      var first := moments[0];
      start <= first.now && CanApply(rows, first.now, first.op) &&
      Becomes(Apply(rows, first.now, first.op), first.now, moments[1..], end, after)
  }

  /** An instance that waits beyond the end keeps its row and its place, whatever the workers do. */
  lemma {:induction false} WaitingKeepsItsPlace(rows: Table, start: int, moments: seq<Moment>, end: int, after: Table,
                                                id: string)
    requires Becomes(rows, start, moments, end, after) && id in rows && !Workers.WaitIsOver(rows[id].row, end)
    ensures id in after && after[id].row == rows[id].row && after[id].updatedAt == rows[id].updatedAt && start <= end
    decreases |moments|
  {
    if moments != [] {
      var first := moments[0];
      NowIsBeforeEnd(Apply(rows, first.now, first.op), first.now, moments[1..], end, after);
      WaitingKeepsItsPlace(Apply(rows, first.now, first.op), first.now, moments[1..], end, after, id);
    }
  }

  lemma {:induction false} NowIsBeforeEnd(rows: Table, start: int, moments: seq<Moment>, end: int, after: Table)
    requires Becomes(rows, start, moments, end, after)
    ensures start <= end
    decreases |moments|
  {
    if moments != [] {
      NowIsBeforeEnd(Apply(rows, moments[0].now, moments[0].op), moments[0].now, moments[1..], end, after);
    }
  }

  /** No instance gets older in the list. */
  lemma {:induction false} PlacesOnlyMoveBack(rows: Table, start: int, moments: seq<Moment>, end: int, after: Table,
                                              id: string)
    requires Becomes(rows, start, moments, end, after) && id in rows && rows[id].updatedAt <= start
    ensures id in after && rows[id].updatedAt <= after[id].updatedAt
    decreases |moments|
  {
    if moments != [] {
      PlacesOnlyMoveBack(Apply(rows, moments[0].now, moments[0].op), moments[0].now, moments[1..], end, after, id);
    }
  }

  /** 500 older instances that still wait keep a younger one off the list: whatever workers do meanwhile, arming the
      timers of the 500 again and again included, no recovery enqueues it while they wait. */
  lemma WaitingOnesStarveTheRest(rows: Table, start: int, moments: seq<Moment>, now: int, after: Table, id: string,
                                 waiting: set<string>, listed: set<string>)
    requires Becomes(rows, start, moments, now, after) && id in rows && rows[id].updatedAt <= start
    requires |waiting| >= RECOVERY_LIMIT && waiting <= RecoverableIds(after, now)
    requires forall w :: w in waiting ==>
      w in rows && !Workers.WaitIsOver(rows[w].row, now) && rows[w].updatedAt < rows[id].updatedAt
    requires MayList(after, now, RECOVERY_LIMIT, listed)
    ensures id !in listed
  {
    var at, all := UpdateTimes(after), RecoverableIds(after, now);
    PlacesOnlyMoveBack(rows, start, moments, now, after, id);
    forall w | w in waiting ensures w in Older(at, all, id) {
      WaitingKeepsItsPlace(rows, start, moments, now, after, w);
    }
    SubsetCount(waiting, Older(at, all, id));
    if id in listed {
      ChosenHasFewOlder(at, all, RECOVERY_LIMIT, listed, id);
    }
  }

  /** Only commits and ends let an instance move up: each commit to an older one takes one away from those before it. */
  lemma SaveMovesBack(rows: Table, now: int, op: Op, id: string, all: set<string>)
    requires CanApply(rows, now, op) && op.Save? && id in rows && id != op.id
    requires rows[id].updatedAt <= now && op.id in Older(UpdateTimes(rows), all, id)
    ensures |Older(UpdateTimes(Apply(rows, now, op)), all, id)| == |Older(UpdateTimes(rows), all, id)| - 1
  {
    assert Older(UpdateTimes(Apply(rows, now, op)), all, id) == Older(UpdateTimes(rows), all, id) - {op.id};
  }

  lemma {:induction false} ManyIds(n: nat) returns (ids: set<string>)
    ensures |ids| == n && forall id :: id in ids ==> 0 < |id| <= n
  {
    if n == 0 {
      ids := {};
    } else {
      var fewer := ManyIds(n - 1);
      var id := seq(n, _ => 'w');
      assert id !in fewer;
      ids := fewer + {id};
    }
  }
}
