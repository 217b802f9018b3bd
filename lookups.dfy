/** The `find` / `filter` / `slice` lookups that both the fixture module and the
    data store perform over their lists of projects, batches and orders. */
module Lookups {
  import opened Wrappers
  import opened Domain
  import opened Seqs

  /** How many of a project's orders the detail view shows. */
  const LastOrdersLimit: nat := 5

  /** `projects.find(p => p.id === id)`. */
  function ProjectById(projects: seq<Project>, id: string): (r: Option<Project>)
    ensures r.None? <==> forall k :: 0 <= k < |projects| ==> projects[k].id != id
    ensures r.Some? ==> exists k :: IsFirstWhere((p: Project) => p.id == id, projects, k) && projects[k] == r.value
    ensures r.Some? ==> r.value in projects && r.value.id == id
  {
    FirstWhere((p: Project) => p.id == id, projects)
  }

  /** `batches.find(b => b.id === id)`. */
  function BatchById(batches: seq<Batch>, id: string): (r: Option<Batch>)
    ensures r.None? <==> forall k :: 0 <= k < |batches| ==> batches[k].id != id
    ensures r.Some? ==> exists k :: IsFirstWhere((b: Batch) => b.id == id, batches, k) && batches[k] == r.value
    ensures r.Some? ==> r.value in batches && r.value.id == id
  {
    FirstWhere((b: Batch) => b.id == id, batches)
  }

  /** When batch ids are unique, looking up a batch's id finds that batch. */
  lemma BatchByIdOfUnique(batches: seq<Batch>, j: int)
    requires forall a, b :: 0 <= a < b < |batches| ==> batches[a].id != batches[b].id
    requires 0 <= j < |batches|
    ensures BatchById(batches, batches[j].id) == Some(batches[j])
  {
    var id := batches[j].id;
    var r := FirstWhere((b: Batch) => b.id == id, batches);
    var k :| IsFirstWhere((b: Batch) => b.id == id, batches, k) && batches[k] == r.value;
    assert k == j;
  }

  /** When project ids are unique, looking up a project's id finds that project. */
  lemma ProjectByIdOfUnique(projects: seq<Project>, j: int)
    requires forall a, b :: 0 <= a < b < |projects| ==> projects[a].id != projects[b].id
    requires 0 <= j < |projects|
    ensures ProjectById(projects, projects[j].id) == Some(projects[j])
  {
    var id := projects[j].id;
    var r := FirstWhere((p: Project) => p.id == id, projects);
    var k :| IsFirstWhere((p: Project) => p.id == id, projects, k) && projects[k] == r.value;
    assert k == j;
  }

  /** `orders.find(o => o.id === id)`. */
  function OrderById(orders: seq<Order>, id: string): (r: Option<Order>)
    ensures r.None? <==> forall k :: 0 <= k < |orders| ==> orders[k].id != id
    ensures r.Some? ==> exists k :: IsFirstWhere((o: Order) => o.id == id, orders, k) && orders[k] == r.value
    ensures r.Some? ==> r.value in orders && r.value.id == id
  {
    FirstWhere((o: Order) => o.id == id, orders)
  }

  /** When order ids are unique, looking up an order's id finds that order. */
  lemma OrderByIdOfUnique(orders: seq<Order>, j: int)
    requires forall a, b :: 0 <= a < b < |orders| ==> orders[a].id != orders[b].id
    requires 0 <= j < |orders|
    ensures OrderById(orders, orders[j].id) == Some(orders[j])
  {
    var id := orders[j].id;
    var r := FirstWhere((o: Order) => o.id == id, orders);
    var k :| IsFirstWhere((o: Order) => o.id == id, orders, k) && orders[k] == r.value;
    assert k == j;
  }

  /** `batches.filter(b => b.projectId === projectId)`. */
  function BatchesOfProject(batches: seq<Batch>, projectId: string): (r: seq<Batch>)
    ensures forall k :: 0 <= k < |r| ==> r[k] in batches && r[k].projectId == projectId
    ensures forall k :: 0 <= k < |batches| && batches[k].projectId == projectId ==> batches[k] in r
    ensures IsSubsequence(r, batches)
    ensures forall b :: b in batches ==> multiset(r)[b] == if b.projectId == projectId then multiset(batches)[b] else 0
  {
    FilterMultiset((b: Batch) => b.projectId == projectId, batches);
    Filter((b: Batch) => b.projectId == projectId, batches)
  }

  /** `orders.filter(o => o.projectId === projectId)`. */
  function OrdersOfProject(orders: seq<Order>, projectId: string): (r: seq<Order>)
    ensures forall k :: 0 <= k < |r| ==> r[k] in orders && r[k].projectId == projectId
    ensures forall k :: 0 <= k < |orders| && orders[k].projectId == projectId ==> orders[k] in r
    ensures IsSubsequence(r, orders)
    ensures forall o :: o in orders ==> multiset(r)[o] == if o.projectId == projectId then multiset(orders)[o] else 0
  {
    FilterMultiset((o: Order) => o.projectId == projectId, orders);
    Filter((o: Order) => o.projectId == projectId, orders)
  }

  /** `orders.filter(o => o.projectId === projectId).slice(0, 5)`: the first five
      of the project's orders in storage order (not the five most recent). */
  function LastOrdersOfProject(orders: seq<Order>, projectId: string): (r: seq<Order>)
    ensures |r| <= LastOrdersLimit
    ensures forall k :: 0 <= k < |r| ==> r[k] in orders && r[k].projectId == projectId
    ensures r <= OrdersOfProject(orders, projectId)
    ensures |r| == if |OrdersOfProject(orders, projectId)| < LastOrdersLimit
                   then |OrdersOfProject(orders, projectId)| else LastOrdersLimit
  {
    var matching := OrdersOfProject(orders, projectId);
    if |matching| <= LastOrdersLimit then matching else matching[..LastOrdersLimit]
  }

  /** The shown orders are a subsequence of the stored ones. */
  lemma {:induction false} LastOrdersInStorageOrder(orders: seq<Order>, projectId: string)
    ensures IsSubsequence(LastOrdersOfProject(orders, projectId), orders)
  {
    var matching := OrdersOfProject(orders, projectId);
    PrefixIsSubsequence(LastOrdersOfProject(orders, projectId), matching);
    SubsequenceTransitive(LastOrdersOfProject(orders, projectId), matching, orders);
  }
}
