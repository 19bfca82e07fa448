/** The store's getters `uniquePokemonCount` and `totalCapturedCount`. */
module Getters {
  import opened Types

  /** The set of ids in a capture sequence (`new Set(capturedPokemon.map(p => p.id))`). */
  function IdSet(caught: seq<Creature>): (ids: set<int>)
    ensures forall id :: id in ids <==> exists i :: 0 <= i < |caught| && caught[i].id == id
    ensures |ids| <= |caught|
  {
    if caught == [] then {}
    else
      var rest := IdSet(caught[1..]);
      assert forall i :: 1 <= i < |caught| ==> caught[i] == caught[1..][i - 1];
      {caught[0].id} + rest
  }

  /** `uniquePokemonCount`: how many different creatures have been caught. */
  function UniquePokemonCount(caught: seq<Creature>): (n: nat)
    ensures n <= TotalCapturedCount(caught)
    ensures caught != [] ==> n >= 1
  {
    assert caught != [] ==> caught[0].id in IdSet(caught);
    |IdSet(caught)|
  }

  /** `totalCapturedCount`: how many captures there have been, duplicates included. */
  function TotalCapturedCount(caught: seq<Creature>): (n: nat)
    ensures n == |caught|
    ensures n >= |IdSet(caught)|
  {
    |caught|
  }

  /** No two captures share an id. */
  predicate DistinctIds(caught: seq<Creature>) {
    forall i, j :: 0 <= i < j < |caught| ==> caught[i].id != caught[j].id
  }

  /** A sequence has distinct ids iff its head's id is not among the tail's and the tail has distinct ids. */
  lemma DistinctIdsCons(caught: seq<Creature>)
    requires caught != []
    ensures DistinctIds(caught) <==> caught[0].id !in IdSet(caught[1..]) && DistinctIds(caught[1..])
  {
    var tail := caught[1..];
    if caught[0].id in IdSet(tail) {
      var k :| 0 <= k < |tail| && tail[k].id == caught[0].id;
      assert caught[k + 1] == tail[k];
    } else if !DistinctIds(tail) {
      var i, j :| 0 <= i < j < |tail| && tail[i].id == tail[j].id;
      assert caught[i + 1] == tail[i] && caught[j + 1] == tail[j];
    } else {
      forall i, j | 0 <= i < j < |caught|
        ensures caught[i].id != caught[j].id
      {
        assert caught[j] == tail[j - 1];
        if i > 0 {
          assert caught[i] == tail[i - 1];
        }
      }
    }
  }

  /** The two counts agree exactly when no id was caught twice. */
  lemma {:induction false} UniqueEqualsTotalIffDistinct(caught: seq<Creature>)
    ensures UniquePokemonCount(caught) == TotalCapturedCount(caught) <==> DistinctIds(caught)
  {
    if caught != [] {
      var tail := caught[1..];
      UniqueEqualsTotalIffDistinct(tail);
      DistinctIdsCons(caught);
      var rest := IdSet(tail);
      assert IdSet(caught) == {caught[0].id} + rest;
      if caught[0].id in rest {
        assert IdSet(caught) == rest;
      } else {
        assert |IdSet(caught)| == |rest| + 1;
      }
    }
  }

  /** Appending a capture adds its id to the id set. */
  lemma {:induction false} IdSetAppend(caught: seq<Creature>, c: Creature)
    ensures IdSet(caught + [c]) == IdSet(caught) + {c.id}
  {
    if caught == [] {
      assert [c][1..] == [];
    } else {
      assert (caught + [c])[1..] == caught[1..] + [c];
      IdSetAppend(caught[1..], c);
    }
  }

  /** One more capture adds one to the total, and one to the unique count exactly when its id is new. */
  lemma CaptureAppendCounts(caught: seq<Creature>, c: Creature)
    ensures TotalCapturedCount(caught + [c]) == TotalCapturedCount(caught) + 1
    ensures UniquePokemonCount(caught + [c])
         == UniquePokemonCount(caught) + (if c.id in IdSet(caught) then 0 else 1)
  {
    IdSetAppend(caught, c);
    var ids := IdSet(caught);
    if c.id in ids {
      assert ids + {c.id} == ids;
    } else {
      assert |ids + {c.id}| == |ids| + 1;
    }
  }

  /** The worked example: captures with ids 1, 1 and 4 count as 2 unique and 3 in all. */
  lemma CountsExample(a: Creature, b: Creature, c: Creature)
    requires a.id == 1 && b.id == 1 && c.id == 4
    ensures UniquePokemonCount([a, b, c]) == 2
    ensures TotalCapturedCount([a, b, c]) == 3
  {
    assert [c][1..] == [];
    assert IdSet([c]) == {4};
    assert [b, c][1..] == [c];
    assert IdSet([b, c]) == {1, 4};
    assert [a, b, c][1..] == [b, c];
    assert IdSet([a, b, c]) == {1, 4};
  }
}
