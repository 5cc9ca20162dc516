/** ORDER BY a time LIMIT a number, as the store uses it for due timers and for recoverable instances. */
module Selection {

  type Times = map<string, int>

  function Members(ids: seq<string>): set<string> {
    set id | id in ids
  }

  predicate NoRepeat(ids: seq<string>) {
    forall i, j :: 0 <= i < j < |ids| ==> ids[i] != ids[j]
  }

  predicate Sorted(at: Times, ids: seq<string>) {
    forall i, j :: 0 <= i < j < |ids| && ids[i] in at && ids[j] in at ==> at[ids[i]] <= at[ids[j]]
  }

  /** Nothing chosen is later than anything left. */
  predicate NoLater(at: Times, chosen: set<string>, left: set<string>) {
    forall b, id :: b in chosen && id in left && b in at && id in at ==> at[b] <= at[id]
  }

  /** The earliest of `all`, as many as there are up to the limit, ties broken in any way. */
  ghost predicate IsEarliest(at: Times, all: set<string>, limit: nat, chosen: set<string>) {
    && chosen <= all
    && |chosen| == (if |all| < limit then |all| else limit)
    && NoLater(at, chosen, all - chosen)
  }

  /** `ids` has been picked out of `all`, earliest first, and `left` is left. */
  predicate Picked(at: Times, all: set<string>, left: set<string>, ids: seq<string>) {
    && left <= all <= at.Keys && Members(ids) == all - left && |ids| + |left| == |all|
    && NoRepeat(ids) && Sorted(at, ids) && NoLater(at, Members(ids), left)
  }

  lemma PickOne(at: Times, all: set<string>, left: set<string>, ids: seq<string>, id: string)
    requires Picked(at, all, left, ids) && id in left
    requires forall other :: other in left ==> at[id] <= at[other]
    ensures Picked(at, all, left - {id}, ids + [id])
  {
    assert Members(ids + [id]) == Members(ids) + {id};
    assert id !in Members(ids);
    assert Sorted(at, ids + [id]) by {
      hide NoRepeat;
      assert forall i :: 0 <= i < |ids| ==> ids[i] in Members(ids);
    }
  }

  lemma PickedIsEarliest(at: Times, all: set<string>, limit: nat, left: set<string>, ids: seq<string>)
    requires Picked(at, all, left, ids) && |ids| <= limit && (left == {} || |ids| == limit)
    ensures IsEarliest(at, all, limit, Members(ids)) && NoRepeat(ids) && Sorted(at, ids)
  {
    MembersCount(ids);
    hide Sorted, NoRepeat, NoLater;
    assert all - Members(ids) == left;
    assert |left| == 0 <==> left == {};
  }

  lemma {:induction false} MembersCount(ids: seq<string>)
    requires NoRepeat(ids)
    ensures |Members(ids)| == |ids|
  {
    if ids != [] {
      var n := |ids| - 1;
      MembersCount(ids[..n]);
      assert Members(ids) == Members(ids[..n]) + {ids[n]};
    }
  }

  method Earliest(at: Times, ids: set<string>) returns (first: string)
    requires ids != {} && ids <= at.Keys
    ensures first in ids && forall id :: id in ids ==> at[first] <= at[id]
  {
    first :| first in ids;
    var rest := ids - {first};
    while rest != {}
      invariant rest <= ids && first in ids
      invariant forall id :: id in ids - rest ==> at[first] <= at[id]
    {
      var id :| id in rest;
      rest := rest - {id};
      if at[id] < at[first] {
        first := id;
      }
    }
  }

  /** Picks the earliest of what is left again and again. */
  method EarliestFirst(at: Times, all: set<string>, limit: nat) returns (ids: seq<string>)
    requires all <= at.Keys
    ensures IsEarliest(at, all, limit, Members(ids)) && NoRepeat(ids) && Sorted(at, ids)
  {
    var left := all;
    ids := [];
    assert Members([]) == {} && Picked(at, all, left, []);
    hide Picked, IsEarliest, Sorted, NoRepeat;
    while left != {} && |ids| < limit
      invariant left <= at.Keys && Picked(at, all, left, ids) && |ids| <= limit
      decreases left
    {
      var id := Earliest(at, left);
      PickOne(at, all, left, ids, id);
      left := left - {id};
      ids := ids + [id];
    }
    PickedIsEarliest(at, all, limit, left, ids);
  }

  lemma {:induction false} EarliestOf(at: Times, ids: set<string>) returns (first: string)
    requires ids != {} && ids <= at.Keys
    ensures first in ids && forall id :: id in ids ==> at[first] <= at[id]
    decreases ids
  {
    first :| first in ids;
    if ids != {first} {
      var other := EarliestOf(at, ids - {first});
      if at[other] < at[first] {
        first := other;
      }
    }
  }

  /** There is always a choice. */
  lemma {:induction false} EarliestExists(at: Times, all: set<string>, limit: nat) returns (chosen: set<string>)
    requires all <= at.Keys
    ensures IsEarliest(at, all, limit, chosen)
    decreases limit
  {
    if limit == 0 || all == {} {
      chosen := {};
    } else {
      var first := EarliestOf(at, all);
      var rest := EarliestExists(at, all - {first}, limit - 1);
      chosen := rest + {first};
      assert all - {first} - rest == all - chosen;
    }
  }

  /** Those that come before `id` whatever the choice, and those that may. */
  ghost function Older(at: Times, all: set<string>, id: string): set<string>
    requires id in at
  {
    set other | other in all && other in at && at[other] < at[id]
  }

  ghost function NotYounger(at: Times, all: set<string>, id: string): set<string>
    requires id in at
  {
    set other | other in all && other in at && other != id && at[other] <= at[id]
  }

  lemma SubsetCount(a: set<string>, b: set<string>)
    requires a <= b
    ensures |a| <= |b|
  {
    assert b == a + (b - a);
  }

  /** Who is chosen has fewer older ones than the limit. */
  lemma ChosenHasFewOlder(at: Times, all: set<string>, limit: nat, chosen: set<string>, id: string)
    requires all <= at.Keys && IsEarliest(at, all, limit, chosen) && id in chosen
    ensures |Older(at, all, id)| < limit
  {
    assert Older(at, all, id) <= chosen - {id};
    SubsetCount(Older(at, all, id), chosen - {id});
  }

  /** Who has fewer than the limit before or beside it is chosen. */
  lemma FewNotYoungerIsChosen(at: Times, all: set<string>, limit: nat, chosen: set<string>, id: string)
    requires all <= at.Keys && IsEarliest(at, all, limit, chosen) && id in all && |NotYounger(at, all, id)| < limit
    ensures id in chosen
  {
    if id !in chosen {
      assert chosen <= NotYounger(at, all, id);
      SubsetCount(chosen, NotYounger(at, all, id));
      assert chosen != all;
      SubsetCount(chosen, all - {id});
    }
  }

  /** Some choice has `id`, if and only if fewer than the limit are older. */
  lemma MayBeChosenIff(at: Times, all: set<string>, limit: nat, id: string)
    requires all <= at.Keys && id in all
    ensures (exists chosen :: IsEarliest(at, all, limit, chosen) && id in chosen) <==> |Older(at, all, id)| < limit
  {
    if chosen :| IsEarliest(at, all, limit, chosen) && id in chosen {
      ChosenHasFewOlder(at, all, limit, chosen, id);
    }
    if |Older(at, all, id)| < limit {
      // The same order, except that `id` comes before those beside it.
      var first: Times := map other | other in at :: if other == id then 2 * at[other] - 1 else 2 * at[other];
      var chosen := EarliestExists(first, all, limit);
      assert NotYounger(first, all, id) == Older(at, all, id);
      FewNotYoungerIsChosen(first, all, limit, chosen, id);
      SameChoice(at, first, all, limit, chosen);
    }
  }

  /** Every choice has `id`, if and only if fewer than the limit are older or as old. */
  lemma MustBeChosenIff(at: Times, all: set<string>, limit: nat, id: string)
    requires all <= at.Keys && id in all
    ensures (forall chosen :: IsEarliest(at, all, limit, chosen) ==> id in chosen) <==> |NotYounger(at, all, id)| < limit
  {
    forall chosen | IsEarliest(at, all, limit, chosen) && |NotYounger(at, all, id)| < limit ensures id in chosen {
      FewNotYoungerIsChosen(at, all, limit, chosen, id);
    }
    if |NotYounger(at, all, id)| >= limit {
      // The same order, except that `id` comes after those beside it.
      var last: Times := map other | other in at :: if other == id then 2 * at[other] + 1 else 2 * at[other];
      var chosen := EarliestExists(last, all, limit);
      assert Older(last, all, id) == NotYounger(at, all, id);
      if id in chosen {
        ChosenHasFewOlder(last, all, limit, chosen, id);
      }
      SameChoice(at, last, all, limit, chosen);
    }
  }

  /** A choice for a finer order is one for the order itself. */
  lemma SameChoice(at: Times, finer: Times, all: set<string>, limit: nat, chosen: set<string>)
    requires IsEarliest(finer, all, limit, chosen) && all <= at.Keys && at.Keys == finer.Keys
    requires forall a, b :: a in at && b in at && finer[a] <= finer[b] ==> at[a] <= at[b]
    ensures IsEarliest(at, all, limit, chosen)
  {
  }
}
