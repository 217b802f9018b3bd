/** The cart reservation store (`src/store/cart.store.ts`): a list of reserved
    lines keyed by batch id, each holding its reservation for fifteen minutes.
    The clock is a parameter: `now` is the millisecond timestamp the source reads
    with `Date.now()` / `new Date()`. */
module CartStore {
  import opened Domain
  import opened Seqs

  /** How long an added line stays reserved: fifteen minutes, in milliseconds. */
  const ReservationMs: int := 15 * 60 * 1000

  /** What a caller passes to `addItem`: a cart line without its expiry. */
  datatype NewCartItem = NewCartItem(
    batchId: string,
    projectId: string,
    projectName: string,
    qtyTons: real,
    pricePerTon: real,
    subtotal: real)

  /** `{ ...item, expiresAt }`: the caller's fields, subtotal included, and the expiry. */
  function Stamped(line: NewCartItem, expiresAt: int): (r: CartItem)
    ensures r.batchId == line.batchId && r.projectId == line.projectId && r.projectName == line.projectName
    ensures r.qtyTons == line.qtyTons && r.pricePerTon == line.pricePerTon && r.subtotal == line.subtotal
    ensures r.expiresAt == expiresAt
  {
    CartItem(line.batchId, line.projectId, line.projectName, line.qtyTons, line.pricePerTon, line.subtotal, expiresAt)
  }

  /** `items.find(i => i.batchId === batchId)` found a line. */
  predicate HasBatch(items: seq<CartItem>, batchId: string) {
    FirstWhere((i: CartItem) => i.batchId == batchId, items).Some?
  }

  lemma HasBatchIff(items: seq<CartItem>, batchId: string)
    ensures HasBatch(items, batchId) <==> exists k :: 0 <= k < |items| && items[k].batchId == batchId
  {
  }

  /** No two lines reserve the same batch. */
  ghost predicate UniqueBatchIds(items: seq<CartItem>) {
    forall i, j :: 0 <= i < j < |items| ==> items[i].batchId != items[j].batchId
  }

  /** Every line's subtotal is its quantity times its price snapshot. */
  ghost predicate SubtotalsConsistent(items: seq<CartItem>) {
    forall k :: 0 <= k < |items| ==> items[k].subtotal == items[k].qtyTons * items[k].pricePerTon
  }

  /** A merged line: the quantities summed, the subtotal recomputed from the
      line's OWN price snapshot, the expiry refreshed. */
  function Merged(existing: CartItem, addedTons: real, expiresAt: int): (r: CartItem)
    ensures r.batchId == existing.batchId && r.projectId == existing.projectId
    ensures r.projectName == existing.projectName && r.pricePerTon == existing.pricePerTon
    ensures r.qtyTons == existing.qtyTons + addedTons
    ensures r.subtotal == r.qtyTons * r.pricePerTon
    ensures r.expiresAt == expiresAt
  {
    existing.(qtyTons := existing.qtyTons + addedTons,
              subtotal := (existing.qtyTons + addedTons) * existing.pricePerTon,
              expiresAt := expiresAt)
  }

  /** The lines after `addItem(line)` at time `now`. */
  function WithItemAdded(items: seq<CartItem>, line: NewCartItem, now: int): (r: seq<CartItem>)
    // merge path: same number of lines, the matching line merged, the others untouched
    ensures HasBatch(items, line.batchId) ==> |r| == |items|
    ensures HasBatch(items, line.batchId) ==>
      forall k :: 0 <= k < |items| && items[k].batchId == line.batchId ==>
        r[k] == Merged(items[k], line.qtyTons, now + ReservationMs)
    ensures HasBatch(items, line.batchId) ==>
      forall k :: 0 <= k < |items| && items[k].batchId != line.batchId ==> r[k] == items[k]
    // insert path: exactly one line appended, carrying the caller's subtotal
    ensures !HasBatch(items, line.batchId) ==> r == items + [Stamped(line, now + ReservationMs)]
    // either way the batch is in the cart, and the batch key stays unique
    ensures HasBatch(r, line.batchId)
    ensures UniqueBatchIds(items) ==> UniqueBatchIds(r)
  {
    var expiresAt := now + ReservationMs;
    if HasBatch(items, line.batchId) then
      Map((i: CartItem) => if i.batchId == line.batchId then Merged(i, line.qtyTons, expiresAt) else i, items)
    else
      var r := items + [Stamped(line, expiresAt)];
      assert r[|items|].batchId == line.batchId;
      r
  }

  /** The `removeItem` filter predicate: the line is for another batch. */
  function OtherBatch(batchId: string): CartItem -> bool {
    (i: CartItem) => i.batchId != batchId
  }

  /** The lines after `removeItem(batchId)`. */
  function WithoutBatch(items: seq<CartItem>, batchId: string): (r: seq<CartItem>)
    ensures forall k :: 0 <= k < |r| ==> r[k].batchId != batchId && r[k] in items
    ensures forall k :: 0 <= k < |items| && items[k].batchId != batchId ==> items[k] in r
    ensures IsSubsequence(r, items)
    ensures forall i :: i in items ==> multiset(r)[i] == if i.batchId != batchId then multiset(items)[i] else 0
    ensures !HasBatch(items, batchId) ==> r == items
    ensures HasBatch(items, batchId) ==> |r| < |items|
    // the cart invariants survive a removal
    ensures UniqueBatchIds(items) ==> UniqueBatchIds(r)
    ensures SubtotalsConsistent(items) ==> SubtotalsConsistent(r)
  {
    RemovalShortens(items, batchId);
    FilterMultiset(OtherBatch(batchId), items);
    FilterKeepsUniqueBatchIds(OtherBatch(batchId), items);
    FilterKeepsSubtotals(OtherBatch(batchId), items);
    Filter(OtherBatch(batchId), items)
  }

  lemma RemovalShortens(items: seq<CartItem>, batchId: string)
    ensures HasBatch(items, batchId) ==> |Filter(OtherBatch(batchId), items)| < |items|
  {
    if HasBatch(items, batchId) {
      var k :| 0 <= k < |items| && items[k].batchId == batchId;
      FilterDrops(OtherBatch(batchId), items, k);
    }
  }

  /** Filtering out an element that fails the predicate shortens the list. */
  lemma {:induction false} FilterDrops<T>(p: T -> bool, s: seq<T>, k: int)
    requires 0 <= k < |s| && !p(s[k])
    ensures |Filter(p, s)| < |s|
  {
    if k > 0 {
      FilterDrops(p, s[1..], k - 1);
    }
  }

  /** Dropping lines from a cart keeps its batch ids unique. */
  lemma {:induction false} FilterKeepsUniqueBatchIds(p: CartItem -> bool, items: seq<CartItem>)
    ensures UniqueBatchIds(items) ==> UniqueBatchIds(Filter(p, items))
  {
    if |items| > 0 && UniqueBatchIds(items) {
      var rest := items[1..];
      assert UniqueBatchIds(rest) by {
        forall i, j | 0 <= i < j < |rest| ensures rest[i].batchId != rest[j].batchId {
          assert rest[i] == items[i + 1] && rest[j] == items[j + 1];
        }
      }
      FilterKeepsUniqueBatchIds(p, rest);
      if p(items[0]) {
        var r := Filter(p, items);
        forall j | 0 < j < |r| ensures r[0].batchId != r[j].batchId {
          assert r[j] == Filter(p, rest)[j - 1] && r[j] in rest;
          var m :| 0 <= m < |rest| && rest[m] == r[j];
          assert items[m + 1] == r[j];
        }
        forall i, j | 0 <= i < j < |r| ensures r[i].batchId != r[j].batchId {
          if i > 0 {
            assert r[i] == Filter(p, rest)[i - 1] && r[j] == Filter(p, rest)[j - 1];
          }
        }
      }
    }
  }

  /** A line whose subtotal is its quantity times its price snapshot. */
  predicate LineConsistent(i: CartItem) {
    i.subtotal == i.qtyTons * i.pricePerTon
  }

  /** Dropping lines from a cart keeps its subtotals consistent. */
  lemma FilterKeepsSubtotals(p: CartItem -> bool, items: seq<CartItem>)
    ensures SubtotalsConsistent(items) ==> SubtotalsConsistent(Filter(p, items))
  {
    if SubtotalsConsistent(items) {
      assert forall k :: 0 <= k < |items| ==> LineConsistent(items[k]);
      FilterKeepsAll(p, LineConsistent, items);
      var r := Filter(p, items);
      assert forall k :: 0 <= k < |r| ==> LineConsistent(r[k]);
    }
  }

  /** The lines after `updateQuantity(batchId, qtyTons)`. */
  function WithQuantity(items: seq<CartItem>, batchId: string, qtyTons: real): (r: seq<CartItem>)
    ensures |r| == |items|
    ensures forall k :: 0 <= k < |items| && items[k].batchId == batchId ==>
      r[k] == items[k].(qtyTons := qtyTons, subtotal := qtyTons * items[k].pricePerTon)
    ensures forall k :: 0 <= k < |items| && items[k].batchId != batchId ==> r[k] == items[k]
    ensures !HasBatch(items, batchId) ==> r == items
    // the batch key stays unique and, with `UpdateQuantitySubtotals`, subtotals stay consistent
    ensures UniqueBatchIds(items) ==> UniqueBatchIds(r)
  {
    Map((i: CartItem) => if i.batchId == batchId then i.(qtyTons := qtyTons, subtotal := qtyTons * i.pricePerTon) else i, items)
  }

  /** The lines `removeExpiredItems` keeps at time `now`: those expiring strictly later. */
  function Unexpired(items: seq<CartItem>, now: int): (r: seq<CartItem>)
    ensures forall k :: 0 <= k < |r| ==> r[k].expiresAt > now && r[k] in items
    ensures forall k :: 0 <= k < |items| && items[k].expiresAt > now ==> items[k] in r
    ensures IsSubsequence(r, items)
    ensures forall i :: i in items ==> multiset(r)[i] == if i.expiresAt > now then multiset(items)[i] else 0
    // the cart invariants survive a sweep
    ensures UniqueBatchIds(items) ==> UniqueBatchIds(r)
    ensures SubtotalsConsistent(items) ==> SubtotalsConsistent(r)
  {
    FilterMultiset((i: CartItem) => i.expiresAt > now, items);
    FilterKeepsUniqueBatchIds((i: CartItem) => i.expiresAt > now, items);
    FilterKeepsSubtotals((i: CartItem) => i.expiresAt > now, items);
    Filter((i: CartItem) => i.expiresAt > now, items)
  }

  /** Sweeping twice at the same instant removes nothing more. */
  lemma SweepIdempotent(items: seq<CartItem>, now: int)
    ensures Unexpired(Unexpired(items, now), now) == Unexpired(items, now)
  {
    FilterIdempotent((i: CartItem) => i.expiresAt > now, items);
  }

  /** A line expiring exactly at `now` is already swept (the comparison is strict). */
  lemma SweepIsStrict(items: seq<CartItem>, now: int, k: int)
    requires 0 <= k < |items| && items[k].expiresAt == now
    ensures items[k] !in Unexpired(items, now)
  {
  }

  /** `items.reduce((sum, item) => sum + item.subtotal, 0)`, folded from the left. */
  function Total(items: seq<CartItem>): (r: real)
    ensures items == [] ==> r == 0.0
    ensures (forall k :: 0 <= k < |items| ==> items[k].subtotal >= 0.0) ==> r >= 0.0
  {
    if |items| == 0 then 0.0 else Total(items[..|items| - 1]) + items[|items| - 1].subtotal
  }

  /** The total of two carts placed end to end is the sum of their totals. */
  lemma {:induction false} TotalAppend(a: seq<CartItem>, b: seq<CartItem>)
    ensures Total(a + b) == Total(a) + Total(b)
    decreases |b|
  {
    if |b| > 0 {
      assert (a + b)[..|a + b| - 1] == a + b[..|b| - 1];
      TotalAppend(a, b[..|b| - 1]);
    } else {
      assert a + b == a;
    }
  }

  /** Inserting a new batch raises the total by the caller's subtotal. */
  lemma TotalAfterInsert(items: seq<CartItem>, line: NewCartItem, now: int)
    requires !HasBatch(items, line.batchId)
    ensures Total(WithItemAdded(items, line, now)) == Total(items) + line.subtotal
  {
  }

  /** Removing a batch that has one line lowers the total by that line's subtotal. */
  lemma TotalAfterRemove(items: seq<CartItem>, k: int)
    requires UniqueBatchIds(items) && 0 <= k < |items|
    ensures Total(WithoutBatch(items, items[k].batchId)) == Total(items) - items[k].subtotal
  {
    var x := items[k];
    var before, after := items[..k], items[k + 1..];
    assert items == before + [x] + after;
    OnlyLineOfItsBatch(items, k);
    TotalWithoutSingleLine(before, x, after);
  }

  /** With unique batch ids, no line before or after line `k` has its batch. */
  lemma OnlyLineOfItsBatch(items: seq<CartItem>, k: int)
    requires UniqueBatchIds(items) && 0 <= k < |items|
    ensures !HasBatch(items[..k], items[k].batchId) && !HasBatch(items[k + 1..], items[k].batchId)
  {
    var id := items[k].batchId;
    HasBatchIff(items[..k], id);
    HasBatchIff(items[k + 1..], id);
    assert forall j :: 0 <= j < k ==> items[..k][j] == items[j];
    var after := items[k + 1..];
    assert forall j :: 0 <= j < |after| ==> after[j] == items[k + 1 + j];
  }

  lemma TotalWithoutSingleLine(before: seq<CartItem>, x: CartItem, after: seq<CartItem>)
    requires !HasBatch(before, x.batchId) && !HasBatch(after, x.batchId)
    ensures Total(WithoutBatch(before + [x] + after, x.batchId)) == Total(before + [x] + after) - x.subtotal
  {
    WithoutSingleLine(before, x, after);
    TotalAppend(before + [x], after);
    TotalAppend(before, [x]);
    TotalAppend(before, after);
    assert Total([x]) == x.subtotal by {
      assert [x][..0] == [];
    }
  }

  lemma WithoutSingleLine(before: seq<CartItem>, x: CartItem, after: seq<CartItem>)
    requires !HasBatch(before, x.batchId) && !HasBatch(after, x.batchId)
    ensures WithoutBatch(before + [x] + after, x.batchId) == before + after
  {
    var p := OtherBatch(x.batchId);
    assert Filter(p, [x]) == [];
    assert Filter(p, before) == before;
    assert Filter(p, after) == after;
    FilterAppend(p, before + [x], after);
    FilterAppend(p, before, [x]);
    assert Filter(p, before + [x]) == before;
  }

  /** From a consistent cart, `addItem` keeps every subtotal equal to quantity times
      price exactly when it merges or the caller's subtotal already agrees: the
      insert path stores the caller's value without recomputing it. */
  lemma AddItemSubtotals(items: seq<CartItem>, line: NewCartItem, now: int)
    requires SubtotalsConsistent(items)
    ensures SubtotalsConsistent(WithItemAdded(items, line, now)) <==>
      (HasBatch(items, line.batchId) || line.subtotal == line.qtyTons * line.pricePerTon)
  {
    var r := WithItemAdded(items, line, now);
    if HasBatch(items, line.batchId) {
      MergeKeepsSubtotals(items, r, line.batchId, line.qtyTons, now + ReservationMs);
    } else {
      InsertSubtotals(items, Stamped(line, now + ReservationMs));
    }
  }

  lemma InsertSubtotals(items: seq<CartItem>, added: CartItem)
    requires SubtotalsConsistent(items)
    ensures SubtotalsConsistent(items + [added]) <==> added.subtotal == added.qtyTons * added.pricePerTon
  {
    assert (items + [added])[|items|] == added;
  }

  lemma MergeKeepsSubtotals(items: seq<CartItem>, r: seq<CartItem>, batchId: string, addedTons: real, expiresAt: int)
    requires SubtotalsConsistent(items) && |r| == |items|
    requires forall k :: 0 <= k < |items| && items[k].batchId == batchId ==> r[k] == Merged(items[k], addedTons, expiresAt)
    requires forall k :: 0 <= k < |items| && items[k].batchId != batchId ==> r[k] == items[k]
    ensures SubtotalsConsistent(r)
  {
  }

  /** `updateQuantity` keeps every subtotal equal to quantity times price. */
  lemma UpdateQuantitySubtotals(items: seq<CartItem>, batchId: string, qtyTons: real)
    requires SubtotalsConsistent(items)
    ensures SubtotalsConsistent(WithQuantity(items, batchId, qtyTons))
  {
    var r := WithQuantity(items, batchId, qtyTons);
    QuantityKeepsSubtotals(items, r, batchId, qtyTons);
  }

  lemma QuantityKeepsSubtotals(items: seq<CartItem>, r: seq<CartItem>, batchId: string, qtyTons: real)
    requires SubtotalsConsistent(items) && |r| == |items|
    requires forall k :: 0 <= k < |items| && items[k].batchId == batchId ==>
      r[k] == items[k].(qtyTons := qtyTons, subtotal := qtyTons * items[k].pricePerTon)
    requires forall k :: 0 <= k < |items| && items[k].batchId != batchId ==> r[k] == items[k]
    ensures SubtotalsConsistent(r)
  {
  }

  /** The cart store: `items` is the only state, replaced by every action. */
  class Cart {
    var items: seq<CartItem>

    /** The invariant every action keeps: one line per batch. */
    ghost predicate Valid()
      reads this
    {
      UniqueBatchIds(items)
    }

    constructor ()
      ensures items == [] && Valid()
    {
      items := [];
    }

    method AddItem(line: NewCartItem, now: int)
      modifies this
      ensures items == WithItemAdded(old(items), line, now)
      ensures old(Valid()) ==> Valid()
    {
      items := WithItemAdded(items, line, now);
    }

    method RemoveItem(batchId: string)
      modifies this
      ensures items == WithoutBatch(old(items), batchId)
      ensures old(Valid()) ==> Valid()
    {
      items := WithoutBatch(items, batchId);
    }

    method UpdateQuantity(batchId: string, qtyTons: real)
      modifies this
      ensures items == WithQuantity(old(items), batchId, qtyTons)
      ensures old(Valid()) ==> Valid()
    {
      items := WithQuantity(items, batchId, qtyTons);
    }

    method ClearCart()
      modifies this
      ensures items == [] && Valid()
    {
      items := [];
    }

    method RemoveExpiredItems(now: int)
      modifies this
      ensures items == Unexpired(old(items), now)
      ensures old(Valid()) ==> Valid()
    {
      items := Unexpired(items, now);
    }

    /** `getTotal()`: the checkout total of the current lines. */
    function GetTotal(): (r: real)
      reads this
      ensures (forall k :: 0 <= k < |items| ==> items[k].subtotal >= 0.0) ==> r >= 0.0
      ensures items == [] ==> r == 0.0
    {
      Total(items)
    }
  }
}
