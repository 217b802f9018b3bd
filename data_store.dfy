/** The persisted data store (`src/store/data.store.ts`): lists of projects,
    batches and orders with create / update / delete actions. Every action
    replaces whole lists, so each is a pure function of the old lists, and the
    `Store` class assigns their results. New ids and creation timestamps,
    which the source draws from the clock and `Math.random`, are parameters. */
module DataStore {
  import opened Wrappers
  import opened Domain
  import opened Seqs
  import opened Lookups
  import MockData

  // ---------------------------------------------------------------- ids

  function ProjectIds(projects: seq<Project>): (r: seq<string>)
    ensures |r| == |projects| && forall k :: 0 <= k < |r| ==> r[k] == projects[k].id
  {
    Map((p: Project) => p.id, projects)
  }

  function BatchIds(batches: seq<Batch>): (r: seq<string>)
    ensures |r| == |batches| && forall k :: 0 <= k < |r| ==> r[k] == batches[k].id
  {
    Map((b: Batch) => b.id, batches)
  }

  function OrderIds(orders: seq<Order>): (r: seq<string>)
    ensures |r| == |orders| && forall k :: 0 <= k < |r| ==> r[k] == orders[k].id
  {
    Map((o: Order) => o.id, orders)
  }

  /** Appending a record with a fresh id keeps the ids of a list unique. */
  lemma AppendFreshProjectId(projects: seq<Project>, p: Project)
    requires NoDuplicates(ProjectIds(projects)) && p.id !in ProjectIds(projects)
    ensures NoDuplicates(ProjectIds(projects + [p]))
  {
    assert ProjectIds(projects + [p]) == ProjectIds(projects) + [p.id];
    AppendFreshNoDuplicates(ProjectIds(projects), p.id);
  }

  lemma AppendFreshBatchId(batches: seq<Batch>, b: Batch)
    requires NoDuplicates(BatchIds(batches)) && b.id !in BatchIds(batches)
    ensures NoDuplicates(BatchIds(batches + [b]))
  {
    assert BatchIds(batches + [b]) == BatchIds(batches) + [b.id];
    AppendFreshNoDuplicates(BatchIds(batches), b.id);
  }

  lemma AppendFreshOrderId(orders: seq<Order>, o: Order)
    requires NoDuplicates(OrderIds(orders)) && o.id !in OrderIds(orders)
    ensures NoDuplicates(OrderIds(orders + [o]))
  {
    assert OrderIds(orders + [o]) == OrderIds(orders) + [o.id];
    AppendFreshNoDuplicates(OrderIds(orders), o.id);
  }

  // ---------------------------------------------------------------- create

  /** `Omit<Project, 'id' | 'createdAt'>`. */
  datatype ProjectInput = ProjectInput(
    name: string,
    location: string,
    hectares: Option<real>,
    description: Option<string>,
    certifier: Option<string>)

  /** `Omit<Batch, 'id' | 'createdAt'>`. */
  datatype BatchInput = BatchInput(projectId: string, tonsCO2: real, pricePerTon: real, status: BatchStatus)

  /** `Omit<Order, 'id' | 'createdAt'>`. */
  datatype OrderInput = OrderInput(
    projectId: string,
    batchId: string,
    buyerName: string,
    qtyTons: real,
    total: real,
    status: OrderStatus,
    processedAt: Option<string>)

  /** `{ ...projectData, id, createdAt }`. */
  function NewProject(input: ProjectInput, id: string, createdAt: string): Project {
    Project(id, input.name, input.location, input.hectares, input.description, input.certifier, Some(createdAt))
  }

  function NewBatch(input: BatchInput, id: string, createdAt: string): Batch {
    Batch(id, input.projectId, input.tonsCO2, input.pricePerTon, input.status, Some(createdAt))
  }

  function NewOrder(input: OrderInput, id: string, createdAt: string): Order {
    Order(id, input.projectId, input.batchId, input.buyerName, input.qtyTons, input.total, input.status,
          Some(createdAt), input.processedAt)
  }

  /** A project created under a fresh id is what a lookup of that id finds
      afterwards, and the ids stay unique. */
  lemma CreatedProjectIsFound(projects: seq<Project>, input: ProjectInput, id: string, createdAt: string)
    requires NoDuplicates(ProjectIds(projects)) && id !in ProjectIds(projects)
    ensures ProjectById(projects + [NewProject(input, id, createdAt)], id) == Some(NewProject(input, id, createdAt))
    ensures NoDuplicates(ProjectIds(projects + [NewProject(input, id, createdAt)]))
  {
    var p := NewProject(input, id, createdAt);
    AppendFreshProjectId(projects, p);
    ProjectByIdOfUnique(projects + [p], |projects|);
  }

  /** The same for a batch. */
  lemma CreatedBatchIsFound(batches: seq<Batch>, input: BatchInput, id: string, createdAt: string)
    requires NoDuplicates(BatchIds(batches)) && id !in BatchIds(batches)
    ensures BatchById(batches + [NewBatch(input, id, createdAt)], id) == Some(NewBatch(input, id, createdAt))
    ensures NoDuplicates(BatchIds(batches + [NewBatch(input, id, createdAt)]))
  {
    var b := NewBatch(input, id, createdAt);
    AppendFreshBatchId(batches, b);
    BatchByIdOfUnique(batches + [b], |batches|);
  }

  /** The same for an order. */
  lemma CreatedOrderIsFound(orders: seq<Order>, input: OrderInput, id: string, createdAt: string)
    requires NoDuplicates(OrderIds(orders)) && id !in OrderIds(orders)
    ensures OrderById(orders + [NewOrder(input, id, createdAt)], id) == Some(NewOrder(input, id, createdAt))
    ensures NoDuplicates(OrderIds(orders + [NewOrder(input, id, createdAt)]))
  {
    var o := NewOrder(input, id, createdAt);
    AppendFreshOrderId(orders, o);
    OrderByIdOfUnique(orders + [o], |orders|);
  }

  // ---------------------------------------------------------------- update

  /** `Partial<Project>`: `None` is an absent property. An optional property
      that is present may itself be `undefined`, hence `Option<Option<_>>`. */
  datatype ProjectPatch = ProjectPatch(
    id: Option<string>,
    name: Option<string>,
    location: Option<string>,
    hectares: Option<Option<real>>,
    description: Option<Option<string>>,
    certifier: Option<Option<string>>,
    createdAt: Option<Option<string>>)

  datatype BatchPatch = BatchPatch(
    id: Option<string>,
    projectId: Option<string>,
    tonsCO2: Option<real>,
    pricePerTon: Option<real>,
    status: Option<BatchStatus>,
    createdAt: Option<Option<string>>)

  datatype OrderPatch = OrderPatch(
    id: Option<string>,
    projectId: Option<string>,
    batchId: Option<string>,
    buyerName: Option<string>,
    qtyTons: Option<real>,
    total: Option<real>,
    status: Option<OrderStatus>,
    createdAt: Option<Option<string>>,
    processedAt: Option<Option<string>>)

  /** `{ ...p, ...patch }`. */
  function PatchedProject(p: Project, patch: ProjectPatch): Project {
    Project(
      Override(p.id, patch.id), Override(p.name, patch.name), Override(p.location, patch.location),
      Override(p.hectares, patch.hectares), Override(p.description, patch.description),
      Override(p.certifier, patch.certifier), Override(p.createdAt, patch.createdAt))
  }

  function PatchedBatch(b: Batch, patch: BatchPatch): Batch {
    Batch(
      Override(b.id, patch.id), Override(b.projectId, patch.projectId), Override(b.tonsCO2, patch.tonsCO2),
      Override(b.pricePerTon, patch.pricePerTon), Override(b.status, patch.status),
      Override(b.createdAt, patch.createdAt))
  }

  function PatchedOrder(o: Order, patch: OrderPatch): Order {
    Order(
      Override(o.id, patch.id), Override(o.projectId, patch.projectId), Override(o.batchId, patch.batchId),
      Override(o.buyerName, patch.buyerName), Override(o.qtyTons, patch.qtyTons), Override(o.total, patch.total),
      Override(o.status, patch.status), Override(o.createdAt, patch.createdAt),
      Override(o.processedAt, patch.processedAt))
  }

  /** `projects.map(p => p.id === id ? { ...p, ...patch } : p)`. */
  function UpdatedProjects(projects: seq<Project>, id: string, patch: ProjectPatch): (r: seq<Project>)
    ensures |r| == |projects|
    ensures forall k :: 0 <= k < |r| && projects[k].id == id ==> r[k] == PatchedProject(projects[k], patch)
    ensures forall k :: 0 <= k < |r| && projects[k].id != id ==> r[k] == projects[k]
  {
    Map((p: Project) => if p.id == id then PatchedProject(p, patch) else p, projects)
  }

  function UpdatedBatches(batches: seq<Batch>, id: string, patch: BatchPatch): (r: seq<Batch>)
    ensures |r| == |batches|
    ensures forall k :: 0 <= k < |r| && batches[k].id == id ==> r[k] == PatchedBatch(batches[k], patch)
    ensures forall k :: 0 <= k < |r| && batches[k].id != id ==> r[k] == batches[k]
  {
    Map((b: Batch) => if b.id == id then PatchedBatch(b, patch) else b, batches)
  }

  function UpdatedOrders(orders: seq<Order>, id: string, patch: OrderPatch): (r: seq<Order>)
    ensures |r| == |orders|
    ensures forall k :: 0 <= k < |r| && orders[k].id == id ==> r[k] == PatchedOrder(orders[k], patch)
    ensures forall k :: 0 <= k < |r| && orders[k].id != id ==> r[k] == orders[k]
  {
    Map((o: Order) => if o.id == id then PatchedOrder(o, patch) else o, orders)
  }

  /** Updating an id no record carries changes nothing. */
  lemma UpdateUnknownProject(projects: seq<Project>, id: string, patch: ProjectPatch)
    requires id !in ProjectIds(projects)
    ensures UpdatedProjects(projects, id, patch) == projects
  {
    assert forall k :: 0 <= k < |projects| ==> ProjectIds(projects)[k] != id;
  }

  lemma UpdateUnknownBatch(batches: seq<Batch>, id: string, patch: BatchPatch)
    requires id !in BatchIds(batches)
    ensures UpdatedBatches(batches, id, patch) == batches
  {
    assert forall k :: 0 <= k < |batches| ==> BatchIds(batches)[k] != id;
  }

  lemma UpdateUnknownOrder(orders: seq<Order>, id: string, patch: OrderPatch)
    requires id !in OrderIds(orders)
    ensures UpdatedOrders(orders, id, patch) == orders
  {
    assert forall k :: 0 <= k < |orders| ==> OrderIds(orders)[k] != id;
  }

  /** Repeating an update changes nothing more: a matched record either keeps
      the id (and a second spread of the same patch is a no-op) or is renamed
      by the patch and no longer matches. */
  lemma UpdateProjectsIdempotent(projects: seq<Project>, id: string, patch: ProjectPatch)
    ensures UpdatedProjects(UpdatedProjects(projects, id, patch), id, patch) == UpdatedProjects(projects, id, patch)
  {
    var once := UpdatedProjects(projects, id, patch);
    var twice := UpdatedProjects(once, id, patch);
    forall k | 0 <= k < |projects| ensures twice[k] == once[k] {
      if projects[k].id == id && once[k].id == id {
        assert twice[k] == PatchedProject(once[k], patch);
      }
    }
  }

  lemma UpdateBatchesIdempotent(batches: seq<Batch>, id: string, patch: BatchPatch)
    ensures UpdatedBatches(UpdatedBatches(batches, id, patch), id, patch) == UpdatedBatches(batches, id, patch)
  {
    var once := UpdatedBatches(batches, id, patch);
    var twice := UpdatedBatches(once, id, patch);
    forall k | 0 <= k < |batches| ensures twice[k] == once[k] {
      if batches[k].id == id && once[k].id == id {
        assert twice[k] == PatchedBatch(once[k], patch);
      }
    }
  }

  lemma UpdateOrdersIdempotent(orders: seq<Order>, id: string, patch: OrderPatch)
    ensures UpdatedOrders(UpdatedOrders(orders, id, patch), id, patch) == UpdatedOrders(orders, id, patch)
  {
    var once := UpdatedOrders(orders, id, patch);
    var twice := UpdatedOrders(once, id, patch);
    forall k | 0 <= k < |orders| ensures twice[k] == once[k] {
      if orders[k].id == id && once[k].id == id {
        assert twice[k] == PatchedOrder(once[k], patch);
      }
    }
  }

  // ---------------------------------------------------------------- delete

  function OtherProject(id: string): Project -> bool {
    (p: Project) => p.id != id
  }

  function NotOfProject(projectId: string): Batch -> bool {
    (b: Batch) => b.projectId != projectId
  }

  function OtherBatchId(id: string): Batch -> bool {
    (b: Batch) => b.id != id
  }

  /** `projects.filter(p => p.id !== id)`. */
  function ProjectsWithout(projects: seq<Project>, id: string): (r: seq<Project>)
    ensures forall k :: 0 <= k < |r| ==> r[k].id != id && r[k] in projects
    ensures forall k :: 0 <= k < |projects| && projects[k].id != id ==> projects[k] in r
    ensures IsSubsequence(r, projects)
    ensures forall p :: p in projects ==> multiset(r)[p] == if p.id != id then multiset(projects)[p] else 0
  {
    FilterMultiset(OtherProject(id), projects);
    Filter(OtherProject(id), projects)
  }

  /** `batches.filter(b => b.projectId !== id)`: the cascade of a project deletion. */
  function BatchesOutsideProject(batches: seq<Batch>, projectId: string): (r: seq<Batch>)
    ensures forall k :: 0 <= k < |r| ==> r[k].projectId != projectId && r[k] in batches
    ensures forall k :: 0 <= k < |batches| && batches[k].projectId != projectId ==> batches[k] in r
    ensures IsSubsequence(r, batches)
    ensures forall b :: b in batches ==> multiset(r)[b] == if b.projectId != projectId then multiset(batches)[b] else 0
  {
    FilterMultiset(NotOfProject(projectId), batches);
    Filter(NotOfProject(projectId), batches)
  }

  /** `batches.filter(b => b.id !== id)`. */
  function BatchesWithout(batches: seq<Batch>, id: string): (r: seq<Batch>)
    ensures forall k :: 0 <= k < |r| ==> r[k].id != id && r[k] in batches
    ensures forall k :: 0 <= k < |batches| && batches[k].id != id ==> batches[k] in r
    ensures IsSubsequence(r, batches)
    ensures forall b :: b in batches ==> multiset(r)[b] == if b.id != id then multiset(batches)[b] else 0
    ensures id !in BatchIds(batches) ==> r == batches
  {
    assert id !in BatchIds(batches) ==> forall k :: 0 <= k < |batches| ==> OtherBatchId(id)(batches[k]) by {
      if id !in BatchIds(batches) {
        forall k | 0 <= k < |batches| ensures OtherBatchId(id)(batches[k]) {
          assert BatchIds(batches)[k] == batches[k].id;
        }
      }
    }
    FilterMultiset(OtherBatchId(id), batches);
    Filter(OtherBatchId(id), batches)
  }

  /** Every batch belongs to a stored project. */
  ghost predicate BatchesReferenceProjects(projects: seq<Project>, batches: seq<Batch>) {
    forall k :: 0 <= k < |batches| ==> ProjectById(projects, batches[k].projectId).Some?
  }

  /** The cascade keeps batches pointing at stored projects: a project deletion
      takes its batches along. */
  lemma DeleteProjectKeepsReferences(projects: seq<Project>, batches: seq<Batch>, id: string)
    requires BatchesReferenceProjects(projects, batches)
    ensures BatchesReferenceProjects(ProjectsWithout(projects, id), BatchesOutsideProject(batches, id))
  {
    var ps := ProjectsWithout(projects, id);
    var bs := BatchesOutsideProject(batches, id);
    forall k | 0 <= k < |bs| ensures ProjectById(ps, bs[k].projectId).Some? {
      var b := bs[k];
      var j :| 0 <= j < |batches| && batches[j] == b;
      var p := ProjectById(projects, b.projectId).value;
      var i :| 0 <= i < |projects| && projects[i] == p;
      assert p in ps;
      var m :| 0 <= m < |ps| && ps[m] == p;
      assert ps[m].id == b.projectId;
    }
  }

  // ---------------------------------------------------------------- cancel

  /** `orders.map(o => o.id === id ? { ...o, status: 'CANCELLED' } : o)`. No
      check of the prior status: a paid order is cancelled as well. */
  function CancelledOrders(orders: seq<Order>, id: string): (r: seq<Order>)
    ensures |r| == |orders|
    ensures forall k :: 0 <= k < |r| ==> r[k].status == (if orders[k].id == id then Cancelled else orders[k].status)
    ensures forall k :: 0 <= k < |r| ==> r[k] == orders[k].(status := r[k].status)
  {
    Map((o: Order) => if o.id == id then o.(status := Cancelled) else o, orders)
  }

  /** The patch that changes the status only. */
  function StatusPatch(status: OrderStatus): OrderPatch {
    OrderPatch(None, None, None, None, None, None, Some(status), None, None)
  }

  /** `cancelOrder(id)` is `updateOrder(id, { status: 'CANCELLED' })`. */
  lemma CancelIsStatusUpdate(orders: seq<Order>, id: string)
    ensures CancelledOrders(orders, id) == UpdatedOrders(orders, id, StatusPatch(Cancelled))
  {
    var c := CancelledOrders(orders, id);
    var u := UpdatedOrders(orders, id, StatusPatch(Cancelled));
    forall k | 0 <= k < |orders| ensures c[k] == u[k] {
      if orders[k].id == id {
        assert u[k] == PatchedOrder(orders[k], StatusPatch(Cancelled));
      }
    }
  }

  /** Cancelling twice is cancelling once. */
  lemma CancelIdempotent(orders: seq<Order>, id: string)
    ensures CancelledOrders(CancelledOrders(orders, id), id) == CancelledOrders(orders, id)
  {
    var once := CancelledOrders(orders, id);
    var twice := CancelledOrders(once, id);
    forall k | 0 <= k < |orders| ensures twice[k] == once[k] {
      assert once[k].id == orders[k].id;
    }
  }

  // ---------------------------------------------------------------- aggregate

  /** `getProjectAggregate(id)`: `null` when there is no such project, and
      otherwise the project with its batches and its first five orders. */
  function ProjectAggregate(projects: seq<Project>, batches: seq<Batch>, orders: seq<Order>, id: string)
    : (r: Option<AggregateProject>)
    ensures r.None? <==> forall k :: 0 <= k < |projects| ==> projects[k].id != id
    ensures r.Some? ==> Some(r.value.project) == ProjectById(projects, id)
    ensures r.Some? ==> r.value.project in projects && r.value.project.id == id
    ensures r.Some? ==> r.value.batches == BatchesOfProject(batches, id)
    ensures r.Some? ==> r.value.lastOrders == LastOrdersOfProject(orders, id)
  {
    match ProjectById(projects, id)
    case None => None
    case Some(project) => Some(AggregateProject(project, BatchesOfProject(batches, id), LastOrdersOfProject(orders, id)))
  }

  /** After a project is deleted its aggregate is gone. */
  lemma DeletedProjectHasNoAggregate(projects: seq<Project>, batches: seq<Batch>, orders: seq<Order>, id: string)
    ensures ProjectAggregate(ProjectsWithout(projects, id), BatchesOutsideProject(batches, id), orders, id).None?
  {
  }

  /** The aggregate's parts all belong to the project and show at most five orders. */
  lemma AggregateBelongsToProject(projects: seq<Project>, batches: seq<Batch>, orders: seq<Order>, id: string)
    requires ProjectAggregate(projects, batches, orders, id).Some?
    ensures var a := ProjectAggregate(projects, batches, orders, id).value;
      && (forall k :: 0 <= k < |a.batches| ==> a.batches[k].projectId == id)
      && (forall k :: 0 <= k < |a.lastOrders| ==> a.lastOrders[k].projectId == id)
      && |a.lastOrders| <= LastOrdersLimit
  {
  }

  // ---------------------------------------------------------------- the store

  /** The store's state. Getters are the `Lookups` functions over its fields. */
  class Store {
    var projects: seq<Project>
    var batches: seq<Batch>
    var orders: seq<Order>

    /** The initial state is the fixtures. */
    constructor()
      ensures projects == MockData.MockProjects && batches == MockData.MockBatches && orders == MockData.MockOrders
    {
      projects := MockData.MockProjects;
      batches := MockData.MockBatches;
      orders := MockData.MockOrders;
    }

    method ResetToMockData()
      modifies this
      ensures projects == MockData.MockProjects && batches == MockData.MockBatches && orders == MockData.MockOrders
    {
      projects := MockData.MockProjects;
      batches := MockData.MockBatches;
      orders := MockData.MockOrders;
    }

    method CreateProject(input: ProjectInput, id: string, createdAt: string) returns (p: Project)
      modifies this
      ensures p == NewProject(input, id, createdAt)
      ensures projects == old(projects) + [p]
      ensures batches == old(batches) && orders == old(orders)
    {
      p := NewProject(input, id, createdAt);
      projects := projects + [p];
    }

    method UpdateProject(id: string, patch: ProjectPatch)
      modifies this
      ensures projects == UpdatedProjects(old(projects), id, patch)
      ensures batches == old(batches) && orders == old(orders)
    {
      projects := UpdatedProjects(projects, id, patch);
    }

    /** Removes the project and its batches; orders stay as they are. */
    method DeleteProject(id: string)
      modifies this
      ensures projects == ProjectsWithout(old(projects), id)
      ensures batches == BatchesOutsideProject(old(batches), id)
      ensures orders == old(orders)
    {
      projects := ProjectsWithout(projects, id);
      batches := BatchesOutsideProject(batches, id);
    }

    method CreateBatch(input: BatchInput, id: string, createdAt: string) returns (b: Batch)
      modifies this
      ensures b == NewBatch(input, id, createdAt)
      ensures batches == old(batches) + [b]
      ensures projects == old(projects) && orders == old(orders)
    {
      b := NewBatch(input, id, createdAt);
      batches := batches + [b];
    }

    method UpdateBatch(id: string, patch: BatchPatch)
      modifies this
      ensures batches == UpdatedBatches(old(batches), id, patch)
      ensures projects == old(projects) && orders == old(orders)
    {
      batches := UpdatedBatches(batches, id, patch);
    }

    method DeleteBatch(id: string)
      modifies this
      ensures batches == BatchesWithout(old(batches), id)
      ensures projects == old(projects) && orders == old(orders)
    {
      batches := BatchesWithout(batches, id);
    }

    method CreateOrder(input: OrderInput, id: string, createdAt: string) returns (o: Order)
      modifies this
      ensures o == NewOrder(input, id, createdAt)
      ensures orders == old(orders) + [o]
      ensures projects == old(projects) && batches == old(batches)
    {
      o := NewOrder(input, id, createdAt);
      orders := orders + [o];
    }

    method UpdateOrder(id: string, patch: OrderPatch)
      modifies this
      ensures orders == UpdatedOrders(old(orders), id, patch)
      ensures projects == old(projects) && batches == old(batches)
    {
      orders := UpdatedOrders(orders, id, patch);
    }

    method CancelOrder(id: string)
      modifies this
      ensures orders == CancelledOrders(old(orders), id)
      ensures projects == old(projects) && batches == old(batches)
    {
      orders := CancelledOrders(orders, id);
    }

    /** `getOrdersByProjectId`: the project's first five stored orders. */
    function GetOrdersByProjectId(projectId: string): (r: seq<Order>)
      reads this
      ensures |r| <= LastOrdersLimit
      ensures forall k :: 0 <= k < |r| ==> r[k] in orders && r[k].projectId == projectId
      ensures r <= OrdersOfProject(orders, projectId)
      ensures |r| == if |OrdersOfProject(orders, projectId)| < LastOrdersLimit
                     then |OrdersOfProject(orders, projectId)| else LastOrdersLimit
    {
      LastOrdersOfProject(orders, projectId)
    }

    /** `getProjectAggregate`: null for an unknown project. */
    function GetProjectAggregate(id: string): (r: Option<AggregateProject>)
      reads this
      ensures r.None? <==> forall k :: 0 <= k < |projects| ==> projects[k].id != id
      ensures r.Some? ==> Some(r.value.project) == ProjectById(projects, id)
      ensures r.Some? ==> r.value.batches == BatchesOfProject(batches, id)
      ensures r.Some? ==> r.value.lastOrders == LastOrdersOfProject(orders, id)
    {
      ProjectAggregate(projects, batches, orders, id)
    }
  }
}
