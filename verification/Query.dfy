/** Table queries of the form "where ... order by created_at limit n". */
module Query {
  import opened Prelude

  /** `ids` are the oldest `limit` rows of those given with their creation times, oldest first. */
  ghost predicate IsOldest(created: map<string, nat>, limit: nat, ids: seq<string>)
  {
    && |ids| <= limit
    && (forall i :: 0 <= i < |ids| ==> ids[i] in created)
    && (forall i, j :: 0 <= i < j < |ids| ==> ids[i] != ids[j])
    && (forall i, j :: 0 <= i < j < |ids| ==> created[ids[i]] <= created[ids[j]])
    && (|ids| < limit ==> forall id :: id in created ==> id in ids)
    && (forall id, i :: id in created && id !in ids && 0 <= i < |ids| ==> created[ids[i]] <= created[id])
  }

  /** The oldest row outside `taken`. */
  method OldestExcept(created: map<string, nat>, taken: seq<string>) returns (best: Option<string>)
    ensures best.Some? ==>
              && best.value in created && best.value !in taken
              && forall id :: id in created && id !in taken ==> created[best.value] <= created[id]
    ensures best.None? ==> forall id :: id in created ==> id in taken
  {
    best := None;
    var rest := created.Keys;
    while rest != {}
      invariant rest <= created.Keys
      invariant best.Some? ==>
                  && best.value in created && best.value !in taken
                  && forall id :: id in created && id !in rest && id !in taken ==> created[best.value] <= created[id]
      invariant best.None? ==> forall id :: id in created && id !in rest ==> id in taken
      decreases rest
    {
      var id :| id in rest;
      rest := rest - {id};
      if id !in taken && (best.None? || created[id] < created[best.value]) {
        best := Some(id);
      }
    }
  }

  method SelectOldest(created: map<string, nat>, limit: nat) returns (ids: seq<string>)
    ensures IsOldest(created, limit, ids)
  {
    ids := [];
    while |ids| < limit
      invariant |ids| <= limit
      invariant IsOldest(created, |ids|, ids)
    {
      var next := OldestExcept(created, ids);
      if next.None? {
        return;
      }
      ids := ids + [next.value];
    }
  }
}
