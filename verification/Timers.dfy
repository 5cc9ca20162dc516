/** The timer service (timer/timer.go) over the timers table (store/postgres.go): one row an instance. Every call to the
    database or to Redis may fail. */
module Timers {
  import opened Selection

  datatype Timer = Timer(step: string, fireAt: int)

  type Table = map<string, Timer>

  function Due(rows: Table, now: int): set<string> {
    set id | id in rows && rows[id].fireAt <= now
  }

  const DEFAULT_LIMIT := 100

  function LimitOf(limit: int): (n: nat)
    ensures n > 0
  {
    if limit <= 0 then DEFAULT_LIMIT else limit
  }

  function FireTimes(rows: Table): Times {
    map id | id in rows :: rows[id].fireAt
  }

  /** `batch` is what one call to ClaimDueTimers may take when others hold locks on the rows `locked`: the earliest due
      timers up to the limit, ties broken in any way. */
  ghost predicate IsBatch(rows: Table, now: int, limit: nat, locked: set<string>, batch: set<string>) {
    IsEarliest(FireTimes(rows), Due(rows, now) - locked, limit, batch)
  }

  /** The timers taken had fired by `now`, each of them once, and nothing else is gone or changed. */
  predicate TakesDue(rows: Table, now: int, taken: seq<string>, left: Table) {
    && (forall i :: 0 <= i < |taken| ==> taken[i] in rows && rows[taken[i]].fireAt <= now && taken[i] !in left)
    && (forall i, j :: 0 <= i < j < |taken| ==> taken[i] != taken[j])
    && (forall id :: id in rows && id !in taken ==> id in left && left[id] == rows[id])
    && (forall id :: id in left ==> id in rows)
  }

  /** Nobody is woken before its key is cleared, and no other key is. */
  predicate KeysCleared(before: set<string>, due: seq<string>, woken: nat, after: set<string>) {
    && after <= before && (forall id :: id in before && id !in due ==> id in after)
    && (forall i :: 0 <= i < woken && i < |due| ==> due[i] !in after)
  }

  /** When fewer timers were taken than allowed, none that nobody else has locked is left to fire; and never more. */
  predicate LeavesNone(left: Table, now: int, limit: int, locked: set<string>, taken: seq<string>) {
    && |taken| <= limit
    && (|taken| < limit ==> forall id :: id in left && id !in locked ==> now < left[id].fireAt)
  }

  function Without(rows: Table, ids: set<string>): Table {
    map id | id in rows && id !in ids :: rows[id]
  }

  /** Polls one after the other with nothing else going on: each takes a batch and deletes it. */
  ghost predicate Polls(rows: Table, now: int, limit: nat, batches: seq<set<string>>, rest: Table) {
    if batches == [] then rest == rows
    else
      IsBatch(rows, now, limit, {}, batches[0]) && Polls(Without(rows, batches[0]), now, limit, batches[1..], rest)
  }

  lemma DueAfterBatch(rows: Table, now: int, batch: set<string>)
    requires batch <= Due(rows, now)
    ensures Due(Without(rows, batch), now) == Due(rows, now) - batch
    ensures |Due(rows, now)| == |batch| + |Due(Without(rows, batch), now)|
  {
    assert Due(rows, now) == batch + Due(Without(rows, batch), now);
  }

  /** `n - m`, or zero. */
  function Minus(n: nat, m: nat): nat {
    if m <= n then n - m else 0
  }

  lemma MinusTwice(n: nat, limit: nat, k: nat)
    requires k > 0
    ensures Minus(Minus(n, limit), (k - 1) * limit) == Minus(n, k * limit)
  {
    assert k * limit == limit + (k - 1) * limit;
  }

  /** The due timers left after `k` polls: `n - k * limit`, or none. Timers that were not due are untouched. */
  lemma {:induction false} DrainLaw(rows: Table, now: int, limit: nat, batches: seq<set<string>>, rest: Table)
    requires Polls(rows, now, limit, batches, rest)
    ensures |Due(rest, now)| == Minus(|Due(rows, now)|, |batches| * limit)
    ensures Due(rest, now) <= Due(rows, now) && rest == Without(rows, Due(rows, now) - Due(rest, now))
    decreases |batches|
  {
    hide Minus;
    if batches == [] {
      NothingTaken(rows, now);
    } else {
      var batch, next := batches[0], Without(rows, batches[0]);
      FirstBatch(rows, now, limit, batch);
      DrainLaw(next, now, limit, batches[1..], rest);
      MinusTwice(|Due(rows, now)|, limit, |batches|);
      hide Polls;
      WithoutTwice(rows, now, batch, rest);
    }
  }

  lemma NothingTaken(rows: Table, now: int)
    ensures Minus(|Due(rows, now)|, 0) == |Due(rows, now)|
    ensures rows == Without(rows, Due(rows, now) - Due(rows, now))
  {
  }

  lemma FirstBatch(rows: Table, now: int, limit: nat, batch: set<string>)
    requires IsBatch(rows, now, limit, {}, batch)
    ensures |Due(Without(rows, batch), now)| == Minus(|Due(rows, now)|, limit)
    ensures batch <= Due(rows, now) && Due(Without(rows, batch), now) == Due(rows, now) - batch
  {
    assert Due(rows, now) - {} == Due(rows, now);
    DueAfterBatch(rows, now, batch);
  }

  lemma WithoutTwice(rows: Table, now: int, batch: set<string>, rest: Table)
    requires batch <= Due(rows, now) && Due(rest, now) <= Due(rows, now) - batch
    requires rest == Without(Without(rows, batch), Due(rows, now) - batch - Due(rest, now))
    ensures rest == Without(rows, Due(rows, now) - Due(rest, now))
  {
  }

  /** n / limit, rounded up. */
  function Ceiling(n: nat, limit: nat): nat
    requires limit > 0
  {
    (n + limit - 1) / limit
  }

  /** Enough polls empty the due timers, and no fewer do: `ceil(n / limit)` polls are exactly what it takes. */
  lemma DrainTakesCeiling(rows: Table, now: int, limit: nat, batches: seq<set<string>>, rest: Table)
    requires limit > 0 && Polls(rows, now, limit, batches, rest)
    ensures Due(rest, now) == {} <==> |batches| >= Ceiling(|Due(rows, now)|, limit)
  {
    DrainLaw(rows, now, limit, batches, rest);
    hide *;
    CeilingIs(|Due(rows, now)|, |batches|, limit);
  }

  lemma CeilingIs(n: nat, k: nat, limit: nat)
    requires limit > 0
    ensures Minus(n, k * limit) == 0 <==> k >= Ceiling(n, limit)
  {
    var c := Ceiling(n, limit);
    assert n + limit - 1 == limit * c + (n + limit - 1) % limit;
    assert limit * c == c * limit;
    if k >= c {
      Scaled(c, k, limit);
    } else {
      Scaled(k + 1, c, limit);
      assert (k + 1) * limit == k * limit + limit;
    }
  }

  lemma Scaled(a: nat, b: nat, limit: nat)
    requires a <= b
    ensures a * limit <= b * limit
  {
    assert b * limit == a * limit + (b - a) * limit;
  }

  /** A timer is polled only out of what was left, and only as a due one. */
  lemma {:induction false} PolledWasDue(rows: Table, now: int, limit: nat, batches: seq<set<string>>, rest: Table,
                                        j: nat, id: string)
    requires Polls(rows, now, limit, batches, rest) && j < |batches| && id in batches[j]
    ensures id in rows && rows[id].fireAt <= now && id !in rest
    decreases |batches|
  {
    DueAfterBatch(rows, now, batches[0]);
    if j == 0 {
      DrainLaw(Without(rows, batches[0]), now, limit, batches[1..], rest);
    } else {
      PolledWasDue(Without(rows, batches[0]), now, limit, batches[1..], rest, j - 1, id);
    }
  }

  /** No timer is polled twice, and a timer polled earlier was not due later. */
  lemma {:induction false} BatchesAreOrdered(rows: Table, now: int, limit: nat, batches: seq<set<string>>, rest: Table,
                                             i: nat, j: nat, a: string, b: string)
    requires Polls(rows, now, limit, batches, rest) && i < j < |batches| && a in batches[i] && b in batches[j]
    ensures a != b && a in rows && b in rows && rows[a].fireAt <= rows[b].fireAt
    decreases |batches|
  {
    var next := Without(rows, batches[0]);
    DueAfterBatch(rows, now, batches[0]);
    PolledWasDue(next, now, limit, batches[1..], rest, j - 1, b);
    if i > 0 {
      BatchesAreOrdered(next, now, limit, batches[1..], rest, i - 1, j - 1, a, b);
    }
  }

  /** Polls leave every timer that has yet to fire as it was; and there are enough of them, for `n` that had fired, exactly
      when every timer left has yet to fire. */
  lemma PollsLeaveTheRest(rows: Table, now: int, limit: nat, batches: seq<set<string>>, rest: Table, fired: set<string>)
    requires limit > 0 && Polls(rows, now, limit, batches, rest)
    requires forall id :: id in fired <==> id in rows && rows[id].fireAt <= now
    ensures forall id :: id in rows && now < rows[id].fireAt ==> id in rest && rest[id] == rows[id]
    ensures forall id :: id in rest ==> id in rows && rest[id] == rows[id]
    ensures (forall id :: id in rest ==> now < rest[id].fireAt) <==> |fired| <= |batches| * limit
  {
    DrainLaw(rows, now, limit, batches, rest);
    assert fired == Due(rows, now);
    hide Polls;
    assert Due(rest, now) == {} <==> forall id :: id in rest ==> now < rest[id].fireAt;
  }

  /** The service. The counters say what became of every row that was ever written, and how many calls to the database, to
      Redis or to the stream have failed. */
  class Service {
    var rows: Table
    var keys: set<string>
    var queue: seq<string>
    const pollLimit: int
    ghost var upserts: nat
    ghost var overwritten: nat
    ghost var cleared: nat
    ghost var fired: nat
    ghost var polled: nat
    ghost var faults: nat

    /** Conservation: a row is live, or was overwritten, cleared, fired or polled, once; and only a fired or polled
        timer wakes its instance, so there are never more wake-ups than upserts. */
    ghost predicate Balanced()
      reads this
    {
      upserts == |rows| + overwritten + cleared + fired + polled && |queue| <= fired + polled
    }

    constructor (pollLimit: int)
      ensures Balanced() && rows == map[] && keys == {} && queue == []
      ensures this.pollLimit == (if pollLimit <= 0 then 100 else pollLimit)
    {
      rows, keys, queue := map[], {}, [];
      this.pollLimit := if pollLimit <= 0 then DEFAULT_LIMIT else pollLimit;
      upserts, overwritten, cleared, fired, polled, faults := 0, 0, 0, 0, 0, 0;
    }

    method UpsertTimer(id: string, timer: Timer) returns (ok: bool)
      requires Balanced()
      modifies this`rows, this`upserts, this`overwritten, this`faults
      ensures Balanced() && faults >= old(faults)
      ensures rows == old(rows)[id := timer] || (!ok && rows == old(rows))
      ensures faults == old(faults) ==> ok
    {
      var lost: bool := *;
      if lost {
        faults := faults + 1;
        return false;
      }
      if id in rows {
        overwritten := overwritten + 1;
        assert rows.Keys == rows[id := timer].Keys;
        assert |rows| == |rows.Keys| && |rows[id := timer]| == |rows[id := timer].Keys|;
      }
      rows := rows[id := timer];
      upserts := upserts + 1;
      ok := *;
      faults := if ok then faults else faults + 1;
    }

    method DeleteTimer(id: string) returns (ok: bool)
      requires Balanced()
      modifies this`rows, this`cleared, this`faults
      ensures Balanced() && faults >= old(faults)
      ensures rows == old(rows) - {id} || (!ok && rows == old(rows))
      ensures faults == old(faults) ==> ok
    {
      var lost: bool := *;
      if lost {
        faults := faults + 1;
        return false;
      }
      if id in rows {
        Removed(rows, id);
        cleared := cleared + 1;
      }
      rows := rows - {id};
      ok := *;
      faults := if ok then faults else faults + 1;
    }

    method FireTimer(id: string) returns (ok: bool, found: bool)
      requires Balanced()
      modifies this`rows, this`fired, this`faults
      ensures Balanced() && faults >= old(faults)
      ensures faults == old(faults) ==> ok
      ensures ok ==> found == (id in old(rows))
      ensures rows == old(rows) - {id} || (!ok && rows == old(rows))
      ensures fired == old(fired) + (if id in old(rows) && id !in rows then 1 else 0)
    {
      var lost: bool := *;
      if lost {
        faults := faults + 1;
        return false, false;
      }
      found := id in rows;
      if found {
        Removed(rows, id);
        fired := fired + 1;
      }
      rows := rows - {id};
      ok := *;
      faults := if ok then faults else faults + 1;
    }

    method ClearRedisKey(id: string) returns (ok: bool)
      modifies this`keys, this`faults
      ensures keys == old(keys) - {id} || (!ok && keys == old(keys))
      ensures faults >= old(faults) && (faults == old(faults) ==> ok)
    {
      var lost: bool := *;
      if lost {
        faults := faults + 1;
        return false;
      }
      keys := keys - {id};
      ok := *;
      faults := if ok then faults else faults + 1;
    }

    method Enqueue(id: string) returns (ok: bool)
      modifies this`queue, this`faults
      ensures queue == old(queue) + [id] || (!ok && queue == old(queue))
      ensures faults >= old(faults) && (faults == old(faults) ==> ok)
    {
      var lost: bool := *;
      if lost {
        faults := faults + 1;
        return false;
      }
      queue := queue + [id];
      ok := *;
      faults := if ok then faults else faults + 1;
    }

    /** Deletes the row and wakes the instance, if there is a row; clears the key in any case. */
    method Fire(id: string) returns (ok: bool)
      requires Balanced()
      modifies this`rows, this`keys, this`queue, this`fired, this`faults
      ensures Balanced() && faults >= old(faults) && (faults == old(faults) ==> ok)
      ensures rows == old(rows) - {id} || (!ok && rows == old(rows))
      ensures queue == old(queue) || (queue == old(queue) + [id] && id in old(rows) && id !in rows)
      ensures ok ==> queue == (if id in old(rows) then old(queue) + [id] else old(queue)) && keys == old(keys) - {id}
    {
      var found;
      ok, found := FireTimer(id);
      if !ok {
        return;
      }
      ok := ClearRedisKey(id);
      if !found || !ok {
        return;
      }
      ok := Enqueue(id);
    }

    method Schedule(id: string, timer: Timer, now: int) returns (ok: bool)
      requires Balanced()
      modifies this
      ensures Balanced() && faults >= old(faults) && (faults == old(faults) ==> ok)
      ensures ok && now < timer.fireAt ==> rows == old(rows)[id := timer] && id in keys && queue == old(queue)
      ensures ok && timer.fireAt <= now ==> rows == old(rows) - {id} && queue == old(queue) + [id]
      ensures rows - {id} == old(rows) - {id} && (queue == old(queue) || queue == old(queue) + [id])
    {
      ok := UpsertTimer(id, timer);
      if !ok {
        return;
      }
      if timer.fireAt <= now {
        ok := Fire(id);
        return;
      }
      var lost: bool := *;
      if lost {
        faults := faults + 1;
        return false;
      }
      keys := keys + {id};
      ok := *;
      faults := if ok then faults else faults + 1;
    }

    method Clear(id: string) returns (ok: bool)
      requires Balanced()
      modifies this`rows, this`keys, this`cleared, this`faults
      ensures Balanced() && faults >= old(faults) && (faults == old(faults) ==> ok)
      ensures rows == old(rows) - {id} || (!ok && rows == old(rows))
      ensures ok ==> keys == old(keys) - {id}
    {
      ok := DeleteTimer(id);
      if ok {
        ok := ClearRedisKey(id);
      }
    }

    /** Takes the earliest of the free timers and deletes them. When the call fails after the rows were deleted, they are
        gone and nobody has them. */
    method ClaimDueTimers(now: int, limit: int, locked: set<string>)
      returns (ok: bool, due: seq<string>, ghost taken: seq<string>)
      requires Balanced()
      modifies this`rows, this`polled, this`faults
      ensures Balanced() && faults >= old(faults) && (faults == old(faults) ==> ok)
      ensures TakesDue(old(rows), now, taken, rows)
      ensures ok ==> LeavesNone(rows, now, if limit <= 0 then 100 else limit, locked, taken)
      ensures due == if ok then taken else []
      ensures taken == [] || IsBatch(old(rows), now, LimitOf(limit), locked, Members(taken))
      ensures ok ==> IsBatch(old(rows), now, LimitOf(limit), locked, Members(taken))
      ensures rows == Without(old(rows), Members(taken)) && polled == old(polled) + |taken|
      ensures NoRepeat(taken) && Sorted(FireTimes(old(rows)), taken)
    {
      due, taken := [], [];
      var lost: bool := *;
      if lost {
        assert rows == Without(rows, Members(taken));
        faults := faults + 1;
        return false, due, taken;
      }
      var free := set id | id in rows && rows[id].fireAt <= now && id !in locked;
      assert free == Due(rows, now) - locked;
      due := EarliestFirst(FireTimes(rows), free, LimitOf(limit));
      taken := due;
      Taken(rows, taken);
      BatchIsDue(rows, now, LimitOf(limit), locked, taken);
      rows := Without(rows, Members(due));
      polled := polled + |due|;
      ok := *;
      if !ok {
        faults := faults + 1;
        due := [];
      }
    }

    /** One poll: the whole batch leaves the table; a failure half-way, or of the claim itself, leaves the rest of it, or
        all of it, without a wake-up. */
    method Poll(now: int, locked: set<string>) returns (ok: bool, ghost batch: seq<string>, ghost done: nat)
      requires Balanced()
      modifies this`rows, this`keys, this`queue, this`polled, this`faults
      ensures Balanced() && done <= |batch| && faults >= old(faults) && (faults == old(faults) ==> ok)
      ensures TakesDue(old(rows), now, batch, rows)
      ensures ok ==> LeavesNone(rows, now, if pollLimit <= 0 then 100 else pollLimit, locked, batch)
      ensures rows == Without(old(rows), Members(batch))
      ensures batch == [] || IsBatch(old(rows), now, LimitOf(pollLimit), locked, Members(batch))
      ensures queue == old(queue) + batch[..done] && KeysCleared(old(keys), batch, done, keys)
      ensures ok ==> done == |batch| && IsBatch(old(rows), now, LimitOf(pollLimit), locked, Members(batch))
    {
      hide IsBatch, Without, Members, Due, LimitOf, Sorted, NoRepeat, TakesDue, LeavesNone;
      var due;
      ok, due, batch := ClaimDueTimers(now, pollLimit, locked);
      done := 0;
      if !ok {
        return;
      }
      ok, done := WakeAll(due);
    }

    /** The loop of poll: wakes one instance after the other, up to the first failure. */
    method WakeAll(due: seq<string>) returns (ok: bool, ghost done: nat)
      modifies this`keys, this`queue, this`faults
      ensures done <= |due| && queue == old(queue) + due[..done] && (ok ==> done == |due|)
      ensures KeysCleared(old(keys), due, done, keys)
      ensures faults >= old(faults) && (faults == old(faults) ==> ok)
    {
      done := 0;
      for i := 0 to |due|
        invariant queue == old(queue) + due[..i] && done == i && faults >= old(faults)
        invariant KeysCleared(old(keys), due, i, keys)
      {
        assert due[..i + 1] == due[..i] + [due[i]];
        ghost var before := queue;
        ok := ClearRedisKey(due[i]);
        if !ok {
          return;
        }
        ok := Enqueue(due[i]);
        if queue != before {
          done := i + 1;
        }
        if !ok {
          return;
        }
      }
      assert due[..|due|] == due;
      ok := true;
    }
  }

  /** What a batch takes, and what it leaves. */
  lemma BatchIsDue(rows: Table, now: int, limit: nat, locked: set<string>, taken: seq<string>)
    requires IsBatch(rows, now, limit, locked, Members(taken)) && NoRepeat(taken)
    ensures TakesDue(rows, now, taken, Without(rows, Members(taken)))
    ensures LeavesNone(Without(rows, Members(taken)), now, limit, locked, taken)
  {
    hide *;
    BatchIsEarliest(rows, now, limit, locked, taken);
    MembersCount(taken);
    DueIsTaken(rows, now, locked, taken);
    if |taken| < limit {
      SubsetIsAll(Members(taken), Due(rows, now) - locked);
      NoneIsLeft(rows, now, locked, taken);
    }
    LeavesNoneIs(Without(rows, Members(taken)), now, limit, locked, taken);
  }

  lemma BatchIsEarliest(rows: Table, now: int, limit: nat, locked: set<string>, taken: seq<string>)
    requires IsBatch(rows, now, limit, locked, Members(taken))
    ensures Members(taken) <= Due(rows, now) - locked && |Members(taken)| <= limit
    ensures |Members(taken)| < limit ==> |Members(taken)| == |Due(rows, now) - locked|
  {
    hide NoLater, Due, Members, FireTimes;
  }

  lemma DueIsTaken(rows: Table, now: int, locked: set<string>, taken: seq<string>)
    requires Members(taken) <= Due(rows, now) - locked && NoRepeat(taken)
    ensures TakesDue(rows, now, taken, Without(rows, Members(taken)))
  {
    assert forall i :: 0 <= i < |taken| ==> taken[i] in Members(taken);
  }

  lemma NoneIsLeft(rows: Table, now: int, locked: set<string>, taken: seq<string>)
    requires Members(taken) == Due(rows, now) - locked
    ensures forall id :: id in Without(rows, Members(taken)) && id !in locked ==>
      now < Without(rows, Members(taken))[id].fireAt
  {
    hide Members;
  }

  lemma LeavesNoneIs(left: Table, now: int, limit: nat, locked: set<string>, taken: seq<string>)
    requires |taken| <= limit
    requires |taken| < limit ==> forall id :: id in left && id !in locked ==> now < left[id].fireAt
    ensures LeavesNone(left, now, limit, locked, taken)
  {
  }

  lemma SubsetIsAll(a: set<string>, b: set<string>)
    requires a <= b && |a| == |b|
    ensures a == b
  {
    assert b == a + (b - a);
    assert |b - a| == 0;
  }

  lemma Removed(rows: Table, id: string)
    requires id in rows
    ensures |rows - {id}| == |rows| - 1
  {
    assert (rows - {id}).Keys == rows.Keys - {id};
    assert |rows| == |rows.Keys| && |rows - {id}| == |(rows - {id}).Keys|;
  }

  /** Deleting distinct rows takes as many rows away. */
  lemma Taken(rows: Table, ids: seq<string>)
    requires NoRepeat(ids) && Members(ids) <= rows.Keys
    ensures |rows| == |Without(rows, Members(ids))| + |ids|
  {
    MembersCount(ids);
    var left := Without(rows, Members(ids));
    assert left.Keys == rows.Keys - Members(ids);
    assert |rows| == |rows.Keys| && |left| == |left.Keys|;
  }
}
