/** The fixture dataset (`src/data/mockData.ts`): nine projects, eighteen batches
    and eight orders, the lookups over them, and the facts that make the fixtures
    a consistent dataset. */
module MockData {
  import opened Wrappers
  import opened Domain
  import opened Seqs
  import opened Lookups

  function P(id: string, name: string, location: string, hectares: real, description: string, certifier: string, createdAt: string): Project {
    Project(id, name, location, Some(hectares), Some(description), Some(certifier), Some(createdAt))
  }

  const MockProjects: seq<Project> := [
    P("1", "Reflorestamento Amazônia Sul", "Pará, Brasil", 15000.0,
      "Projeto de reflorestamento na Amazônia com foco em recuperação de áreas degradadas e proteção da biodiversidade.",
      "Verra VCS", "2024-01-15T10:00:00Z"),
    P("2", "Energia Solar Nordeste", "Bahia, Brasil", 500.0,
      "Usina de energia solar fotovoltaica gerando créditos de carbono pela substituição de energia de fontes fósseis.",
      "Gold Standard", "2024-02-20T14:30:00Z"),
    P("3", "Conservação Pantanal", "Mato Grosso, Brasil", 25000.0,
      "Preservação de área nativa do Pantanal com proteção de ecossistemas e fauna silvestre.",
      "Verra VCS", "2024-01-10T08:15:00Z"),
    P("4", "Reflorestamento Mata Atlântica", "São Paulo, Brasil", 8000.0,
      "Recuperação de áreas de Mata Atlântica com plantio de espécies nativas e corredores ecológicos.",
      "Biocarbon Registry", "2024-03-05T11:20:00Z"),
    P("5", "Energia Eólica Sul", "Rio Grande do Sul, Brasil", 300.0,
      "Parque eólico gerando energia limpa e créditos de carbono verificados.",
      "Gold Standard", "2024-02-18T16:45:00Z"),
    P("6", "Conservação Cerrado", "Goiás, Brasil", 18000.0,
      "Proteção de área nativa do Cerrado com monitoramento de desmatamento evitado.",
      "Verra VCS", "2024-01-25T09:30:00Z"),
    P("7", "Hidrelétrica Sustentável", "Paraná, Brasil", 200.0,
      "Pequena central hidrelétrica com mínimo impacto ambiental gerando créditos de carbono.",
      "I-REC", "2024-03-12T13:00:00Z"),
    P("8", "Reflorestamento Caatinga", "Ceará, Brasil", 6000.0,
      "Recuperação de áreas degradadas da Caatinga com espécies nativas resistentes à seca.",
      "Biocarbon Registry", "2024-02-08T10:15:00Z"),
    P("9", "Biomassa Sustentável", "Minas Gerais, Brasil", 1000.0,
      "Geração de energia através de biomassa sustentável substituindo combustíveis fósseis.",
      "Gold Standard", "2024-03-20T15:30:00Z")
  ]

  function B(id: string, projectId: string, tonsCO2: real, pricePerTon: real, status: BatchStatus, createdAt: string): Batch {
    Batch(id, projectId, tonsCO2, pricePerTon, status, Some(createdAt))
  }

  const MockBatches: seq<Batch> := [
    B("1-1", "1", 500.5, 85.00, Available, "2024-01-15T10:00:00Z"),
    B("1-2", "1", 1200.0, 80.00, Available, "2024-01-16T10:00:00Z"),
    B("1-3", "1", 300.0, 90.00, Sold, "2024-01-10T10:00:00Z"),
    B("2-1", "2", 250.0, 120.00, Available, "2024-02-20T14:30:00Z"),
    B("2-2", "2", 400.0, 115.00, Reserved, "2024-02-21T14:30:00Z"),
    B("3-1", "3", 2000.0, 75.00, Available, "2024-01-10T08:15:00Z"),
    B("3-2", "3", 1500.0, 78.00, Available, "2024-01-11T08:15:00Z"),
    B("3-3", "3", 800.0, 72.00, Sold, "2024-01-05T08:15:00Z"),
    B("4-1", "4", 600.0, 95.00, Available, "2024-03-05T11:20:00Z"),
    B("4-2", "4", 450.0, 98.00, Available, "2024-03-06T11:20:00Z"),
    B("5-1", "5", 350.0, 110.00, Available, "2024-02-18T16:45:00Z"),
    B("5-2", "5", 200.0, 105.00, Sold, "2024-02-15T16:45:00Z"),
    B("6-1", "6", 1800.0, 70.00, Available, "2024-01-25T09:30:00Z"),
    B("6-2", "6", 1000.0, 68.00, Available, "2024-01-26T09:30:00Z"),
    B("7-1", "7", 180.0, 100.00, Available, "2024-03-12T13:00:00Z"),
    B("8-1", "8", 420.0, 88.00, Available, "2024-02-08T10:15:00Z"),
    B("8-2", "8", 320.0, 92.00, Reserved, "2024-02-09T10:15:00Z"),
    B("9-1", "9", 280.0, 108.00, Available, "2024-03-20T15:30:00Z")
  ]

  function O(id: string, projectId: string, batchId: string, buyerName: string, qtyTons: real, total: real,
             status: OrderStatus, createdAt: string, processedAt: Option<string>): Order {
    Order(id, projectId, batchId, buyerName, qtyTons, total, status, Some(createdAt), processedAt)
  }

  const MockOrders: seq<Order> := [
    O("ord-001", "1", "1-3", "Empresa Verde Ltda", 300.0, 27000.00, Paid,
      "2024-03-15T10:30:00Z", Some("2024-03-15T10:35:00Z")),
    O("ord-002", "3", "3-3", "Tech Solutions S.A.", 800.0, 57600.00, Paid,
      "2024-03-14T14:20:00Z", Some("2024-03-14T14:25:00Z")),
    O("ord-003", "2", "2-2", "Indústria Sustentável", 400.0, 46000.00, Pending,
      "2024-03-22T16:45:00Z", None),
    O("ord-004", "5", "5-2", "Comércio Eco Brasil", 200.0, 21000.00, Paid,
      "2024-03-20T11:15:00Z", Some("2024-03-20T11:20:00Z")),
    O("ord-005", "1", "1-1", "Agro Carbono Zero", 150.0, 12750.00, Pending,
      "2024-03-23T09:00:00Z", None),
    O("ord-006", "4", "4-1", "Construtora Ambiental", 250.0, 23750.00, Paid,
      "2024-03-21T13:30:00Z", Some("2024-03-21T13:35:00Z")),
    O("ord-007", "8", "8-2", "Logística Verde Ltda", 320.0, 29440.00, Cancelled,
      "2024-03-18T15:20:00Z", None),
    O("ord-008", "6", "6-1", "Mineradora Responsável", 500.0, 35000.00, Paid,
      "2024-03-19T10:45:00Z", Some("2024-03-19T10:50:00Z"))
  ]

  /** `getProjectById` over the fixtures. */
  function GetProjectById(id: string): (r: Option<Project>)
    ensures r.None? <==> forall k :: 0 <= k < |MockProjects| ==> MockProjects[k].id != id
    ensures r.Some? ==> exists k :: IsFirstWhere((p: Project) => p.id == id, MockProjects, k) && MockProjects[k] == r.value
    ensures r.Some? ==> r.value in MockProjects && r.value.id == id
  {
    ProjectById(MockProjects, id)
  }

  /** `getBatchesByProjectId` over the fixtures. */
  function GetBatchesByProjectId(projectId: string): (r: seq<Batch>)
    ensures forall k :: 0 <= k < |r| ==> r[k] in MockBatches && r[k].projectId == projectId
    ensures forall k :: 0 <= k < |MockBatches| && MockBatches[k].projectId == projectId ==> MockBatches[k] in r
    ensures IsSubsequence(r, MockBatches)
    ensures forall b :: b in MockBatches ==> multiset(r)[b] == if b.projectId == projectId then multiset(MockBatches)[b] else 0
  {
    BatchesOfProject(MockBatches, projectId)
  }

  /** `getOrdersByProjectId` over the fixtures. */
  function GetOrdersByProjectId(projectId: string): (r: seq<Order>)
    ensures |r| <= LastOrdersLimit
    ensures forall k :: 0 <= k < |r| ==> r[k] in MockOrders && r[k].projectId == projectId
    ensures r <= OrdersOfProject(MockOrders, projectId)
    ensures |r| == if |OrdersOfProject(MockOrders, projectId)| < LastOrdersLimit
                   then |OrdersOfProject(MockOrders, projectId)| else LastOrdersLimit
  {
    LastOrdersOfProject(MockOrders, projectId)
  }

  /** Every fixture batch belongs to a fixture project. */
  lemma BatchesReferenceProjects()
    ensures forall k :: 0 <= k < |MockBatches| ==> GetProjectById(MockBatches[k].projectId).Some?
  {
  }

  /** Fixture batch ids are unique. */
  lemma BatchIdsUnique()
    ensures forall i, j :: 0 <= i < j < |MockBatches| ==> MockBatches[i].id != MockBatches[j].id
  {
  }

  /** For each fixture order, the position of its batch among the fixture batches. */
  const OrderBatchIndex: seq<nat> := [2, 7, 4, 11, 0, 8, 16, 12]

  /** `b` is the batch `o` was placed on: it belongs to the order's project and
      the order's total is its price times the ordered quantity. */
  predicate PlacedOn(o: Order, b: Batch) {
    b.id == o.batchId && b.projectId == o.projectId && o.total == o.qtyTons * b.pricePerTon
  }

  /** Some batch of `batches` is the one `o` was placed on. */
  predicate PlacedIn(o: Order, batches: seq<Batch>) {
    exists j :: 0 <= j < |batches| && PlacedOn(o, batches[j])
  }

  /** Every fixture order was placed on a fixture batch (which, batch ids being
      unique, is the one `BatchById` finds: see `OrderResolves`). */
  lemma OrdersMatchTheirBatches()
    ensures forall k :: 0 <= k < |MockOrders| ==> PlacedIn(MockOrders[k], MockBatches)
  {
    forall k | 0 <= k < |MockOrders| ensures PlacedIn(MockOrders[k], MockBatches) {
      OrderBatchAt(k);
      assert PlacedOn(MockOrders[k], MockBatches[OrderBatchIndex[k]]);
    }
  }

  /** The lookup of each fixture order's batch finds the batch it was placed on. */
  lemma OrderResolves(k: nat)
    requires k < |MockOrders|
    ensures OrderBatchIndex[k] < |MockBatches|
    ensures BatchById(MockBatches, MockOrders[k].batchId) == Some(MockBatches[OrderBatchIndex[k]])
    ensures PlacedOn(MockOrders[k], MockBatches[OrderBatchIndex[k]])
  {
    BatchIdsUnique();
    OrderBatchAt(k);
    BatchByIdOfUnique(MockBatches, OrderBatchIndex[k]);
  }

  lemma OrderBatchAt(k: nat)
    requires k < |MockOrders|
    ensures OrderBatchIndex[k] < |MockBatches|
    ensures MockBatches[OrderBatchIndex[k]].id == MockOrders[k].batchId
    ensures MockBatches[OrderBatchIndex[k]].projectId == MockOrders[k].projectId
    ensures MockOrders[k].total == MockOrders[k].qtyTons * MockBatches[OrderBatchIndex[k]].pricePerTon
  {
    if k == 0 {} else if k == 1 {} else if k == 2 {} else if k == 3 {}
    else if k == 4 {} else if k == 5 {} else if k == 6 {} else {}
  }

  /** A fixture order carries `processedAt` exactly when it is PAID. */
  lemma ProcessedExactlyWhenPaid()
    ensures forall k :: 0 <= k < |MockOrders| ==> (MockOrders[k].processedAt.Some? <==> MockOrders[k].status == Paid)
  {
  }
}
