/** The session UI store (`src/store/ui.store.ts`): the compare drawer's
    visibility and the ids of the batches picked for comparison. */
module UiStore {
  import opened Seqs

  /** At most this many batches can be compared at once. */
  const MaxCompare: nat := 4

  /** The compare list after `addToCompare(id)`: `id` appended when there is
      room and it is not already there, and otherwise the list unchanged. */
  function WithCompared(batches: seq<string>, id: string): (r: seq<string>)
    ensures id in r
      || (|batches| >= MaxCompare && r == batches)
    ensures |batches| < MaxCompare && id !in batches ==> r == batches + [id]
    ensures |batches| >= MaxCompare || id in batches ==> r == batches
  {
    if |batches| < MaxCompare && !Includes(batches, id) then batches + [id] else batches
  }

  /** The compare list's invariant: at most `MaxCompare` ids, none twice. */
  ghost predicate CompareListOk(batches: seq<string>) {
    |batches| <= MaxCompare && NoDuplicates(batches)
  }

  /** Adding and removing keep the invariant. */
  lemma AddKeepsCompareListOk(batches: seq<string>, id: string)
    requires CompareListOk(batches)
    ensures CompareListOk(WithCompared(batches, id))
  {
    if |batches| < MaxCompare && id !in batches {
      AppendFreshNoDuplicates(batches, id);
    }
  }

  lemma RemoveKeepsCompareListOk(batches: seq<string>, id: string)
    requires CompareListOk(batches)
    ensures CompareListOk(Without(batches, id))
  {
    SubsequenceNoDuplicates(Without(batches, id), batches);
  }

  /** Removing a batch that was just added takes the list back to where it was. */
  lemma AddThenRemove(batches: seq<string>, id: string)
    requires id !in batches
    ensures Without(WithCompared(batches, id), id) == batches
  {
    if |batches| < MaxCompare {
      WithoutAppended(batches, id);
    }
  }

  class Ui {
    var compareDrawerOpen: bool
    var compareBatches: seq<string>

    ghost predicate Valid()
      reads this
    {
      CompareListOk(compareBatches)
    }

    constructor()
      ensures !compareDrawerOpen && compareBatches == []
      ensures Valid()
    {
      compareDrawerOpen := false;
      compareBatches := [];
    }

    method SetCompareDrawerOpen(open: bool)
      modifies this
      ensures compareDrawerOpen == open && compareBatches == old(compareBatches)
    {
      compareDrawerOpen := open;
    }

    method AddToCompare(batchId: string)
      modifies this
      ensures compareBatches == WithCompared(old(compareBatches), batchId)
      ensures compareDrawerOpen == old(compareDrawerOpen)
      ensures old(Valid()) ==> Valid()
    {
      if |compareBatches| < MaxCompare && !Includes(compareBatches, batchId) {
        compareBatches := compareBatches + [batchId];
      }
      if old(Valid()) {
        AddKeepsCompareListOk(old(compareBatches), batchId);
      }
    }

    /** Removes `batchId` and keeps the other ids in order. */
    method RemoveFromCompare(batchId: string)
      modifies this
      ensures compareBatches == Without(old(compareBatches), batchId)
      ensures compareDrawerOpen == old(compareDrawerOpen)
      ensures old(Valid()) ==> Valid()
    {
      compareBatches := Without(compareBatches, batchId);
      if old(Valid()) {
        RemoveKeepsCompareListOk(old(compareBatches), batchId);
      }
    }

    method ClearCompare()
      modifies this
      ensures compareBatches == [] && compareDrawerOpen == old(compareDrawerOpen)
      ensures Valid()
    {
      compareBatches := [];
    }
  }
}
