/** The derivations of one project card (`ProjectCard.tsx`): which of the
    project's batches are available, the "from" price, and which parts of the
    card are shown. */
module ProjectCard {
  import opened Domain
  import opened Seqs
  import JsMath

  predicate IsAvailable(b: Batch) {
    b.status == Available
  }

  /** `batches.filter(b => b.status === 'AVAILABLE')`. */
  function AvailableBatches(batches: seq<Batch>): (r: seq<Batch>)
    ensures forall k :: 0 <= k < |r| ==> r[k] in batches && r[k].status == Available
    ensures forall k :: 0 <= k < |batches| && batches[k].status == Available ==> batches[k] in r
    ensures IsSubsequence(r, batches)
    ensures forall b :: b in batches ==> multiset(r)[b] == if b.status == Available then multiset(batches)[b] else 0
  {
    FilterMultiset(IsAvailable, batches);
    Filter(IsAvailable, batches)
  }

  /** How many of `batches` are available, counted position by position. */
  function CountAvailable(batches: seq<Batch>): nat {
    if |batches| == 0 then 0
    else (if batches[0].status == Available then 1 else 0) + CountAvailable(batches[1..])
  }

  /** The "available lots" figure is the number of AVAILABLE batches, duplicates included. */
  lemma {:induction false} AvailableCountIsCount(batches: seq<Batch>)
    ensures |AvailableBatches(batches)| == CountAvailable(batches)
  {
    if |batches| > 0 {
      AvailableCountIsCount(batches[1..]);
    }
  }

  /** `availableBatches.map(b => b.pricePerTon)`. */
  function PricesOf(batches: seq<Batch>): (r: seq<real>)
    ensures |r| == |batches| && forall k :: 0 <= k < |r| ==> r[k] == batches[k].pricePerTon
  {
    Map((b: Batch) => b.pricePerTon, batches)
  }

  /** `minPrice`: the least price of an available batch, and 0 when none is available. */
  function MinPrice(batches: seq<Batch>): (r: real)
    ensures AvailableBatches(batches) == [] ==> r == 0.0
    ensures AvailableBatches(batches) != [] ==>
      && (exists k :: 0 <= k < |AvailableBatches(batches)| && AvailableBatches(batches)[k].pricePerTon == r)
      && (forall k :: 0 <= k < |AvailableBatches(batches)| ==> r <= AvailableBatches(batches)[k].pricePerTon)
  {
    var available := AvailableBatches(batches);
    if |available| > 0 then
      var m := JsMath.Min(PricesOf(available));
      assert m.Finite?;
      m.value
    else 0.0
  }

  /** The "from" price is shown when `minPrice > 0`. */
  predicate ShowFromPrice(batches: seq<Batch>) {
    MinPrice(batches) > 0.0
  }

  /** ... which is exactly when some batch is available and every available batch has a positive price. */
  lemma ShowFromPriceIff(batches: seq<Batch>)
    ensures ShowFromPrice(batches) <==>
      && (exists k :: 0 <= k < |batches| && batches[k].status == Available)
      && (forall k :: 0 <= k < |batches| && batches[k].status == Available ==> batches[k].pricePerTon > 0.0)
  {
    var available := AvailableBatches(batches);
    if exists k :: 0 <= k < |batches| && batches[k].status == Available {
      var k :| 0 <= k < |batches| && batches[k].status == Available;
      assert batches[k] in available;
      if ShowFromPrice(batches) {
        forall j | 0 <= j < |batches| && batches[j].status == Available ensures batches[j].pricePerTon > 0.0 {
          assert batches[j] in available;
        }
      }
    }
  }

  /** The tons badge is shown when some batch is available. */
  predicate ShowTonsBadge(batches: seq<Batch>): (r: bool)
    ensures r <==> exists k :: 0 <= k < |batches| && batches[k].status == Available
  {
    var available := AvailableBatches(batches);
    assert |available| > 0 ==> available[0] in batches;
    |available| > 0
  }

  /** The compare button needs a compare action and an available batch. */
  predicate ShowCompare(onCompareGiven: bool, batches: seq<Batch>): (r: bool)
    ensures r <==> onCompareGiven && exists k :: 0 <= k < |batches| && batches[k].status == Available
  {
    onCompareGiven && ShowTonsBadge(batches)
  }

  /** `availableBatches.reduce((sum, b) => sum + b.tonsCO2, 0)`. */
  function TonsOf(batches: seq<Batch>): real {
    if |batches| == 0 then 0.0 else TonsOf(batches[..|batches| - 1]) + batches[|batches| - 1].tonsCO2
  }

  /** The badge's figure: the tons of the available batches. */
  function AvailableTons(batches: seq<Batch>): real {
    TonsOf(AvailableBatches(batches))
  }

  /** With non-negative tons, the badge's figure is at most the tons of all batches. */
  lemma {:induction false} AvailableTonsBounded(batches: seq<Batch>)
    requires forall k :: 0 <= k < |batches| ==> batches[k].tonsCO2 >= 0.0
    ensures 0.0 <= AvailableTons(batches) <= TonsOf(batches)
  {
    if |batches| > 0 {
      var init := batches[..|batches| - 1];
      var last := batches[|batches| - 1];
      assert batches == init + [last];
      AvailableTonsBounded(init);
      FilterAppend(IsAvailable, init, [last]);
      TonsAppend(AvailableBatches(init), Filter(IsAvailable, [last]));
    }
  }

  /** The tons of a concatenation add up. */
  lemma {:induction false} TonsAppend(a: seq<Batch>, b: seq<Batch>)
    ensures TonsOf(a + b) == TonsOf(a) + TonsOf(b)
    decreases |b|
  {
    if |b| > 0 {
      var init := b[..|b| - 1];
      assert (a + b)[..|a + b| - 1] == a + init;
      TonsAppend(a, init);
    } else {
      assert a + b == a;
    }
  }
}
