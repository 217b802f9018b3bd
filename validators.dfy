/** The input schemas (`src/lib/validators.ts`), each restated as the predicate
    that holds exactly of the inputs the schema accepts. `min(n)` on a string
    bounds its length; `min(x)` on a number bounds its value. */
module Validators {
  import opened Wrappers
  import opened Domain

  const MinProjectNameLength: nat := 3
  const MinLocationLength: nat := 2
  const MinBuyerNameLength: nat := 3
  /** The least quantity and the least price a batch or an order line may carry. */
  const MinAmount: real := 0.01

  /** `projectCreateSchema`'s input. */
  datatype ProjectCreate = ProjectCreate(
    name: string,
    location: string,
    hectares: Option<real>,
    description: Option<string>,
    certifier: Option<string>)

  predicate ProjectCreateValid(p: ProjectCreate) {
    && |p.name| >= MinProjectNameLength
    && |p.location| >= MinLocationLength
    && (p.hectares.Some? ==> p.hectares.value >= 0.0)
  }

  /** `projectUpdateSchema = projectCreateSchema.partial()`: every key optional. */
  datatype ProjectUpdate = ProjectUpdate(
    name: Option<string>,
    location: Option<string>,
    hectares: Option<real>,
    description: Option<string>,
    certifier: Option<string>)

  predicate ProjectUpdateValid(u: ProjectUpdate) {
    && (u.name.Some? ==> |u.name.value| >= MinProjectNameLength)
    && (u.location.Some? ==> |u.location.value| >= MinLocationLength)
    && (u.hectares.Some? ==> u.hectares.value >= 0.0)
  }

  /** The update made of those fields of `p` that the flags keep. */
  function PartOf(p: ProjectCreate, name: bool, location: bool, hectares: bool, description: bool, certifier: bool): ProjectUpdate {
    ProjectUpdate(
      if name then Some(p.name) else None,
      if location then Some(p.location) else None,
      if hectares then p.hectares else None,
      if description then p.description else None,
      if certifier then p.certifier else None)
  }

  /** Any subset of a valid creation's fields is a valid update, and an update
      carrying every field is valid exactly when the creation is. */
  lemma UpdateAcceptsAnySubset(p: ProjectCreate, name: bool, location: bool, hectares: bool, description: bool, certifier: bool)
    ensures ProjectCreateValid(p) ==> ProjectUpdateValid(PartOf(p, name, location, hectares, description, certifier))
    ensures ProjectUpdateValid(PartOf(p, true, true, true, true, true)) <==> ProjectCreateValid(p)
  {
  }

  /** Each field present in an update is checked as on creation: one bad field
      rejects the whole update whatever else it carries. */
  lemma UpdateChecksEachPresentField(u: ProjectUpdate)
    ensures ProjectUpdateValid(u) <==>
      && ProjectUpdateValid(ProjectUpdate(u.name, None, None, None, None))
      && ProjectUpdateValid(ProjectUpdate(None, u.location, None, None, None))
      && ProjectUpdateValid(ProjectUpdate(None, None, u.hectares, None, None))
  {
  }

  /** The wire name of a batch status. */
  function StatusName(s: BatchStatus): string {
    match s
    case Available => "AVAILABLE"
    case Reserved => "RESERVED"
    case Sold => "SOLD"
  }

  /** `z.enum(['AVAILABLE', 'RESERVED', 'SOLD']).default('AVAILABLE')`: an absent
      status reads as AVAILABLE, any other string outside the three is rejected. */
  function ParseBatchStatus(s: Option<string>): (r: Option<BatchStatus>)
    ensures s.None? ==> r == Some(Available)
    ensures s.Some? && r.Some? ==> s.value == StatusName(r.value)
    ensures s.Some? && r.None? ==> forall st: BatchStatus :: s.value != StatusName(st)
  {
    match s
    case None => Some(Available)
    case Some(name) =>
      if name == "AVAILABLE" then Some(Available)
      else if name == "RESERVED" then Some(Reserved)
      else if name == "SOLD" then Some(Sold)
      else None
  }

  /** Every status survives a trip through its wire name. */
  lemma StatusNameRoundTrip(st: BatchStatus)
    ensures ParseBatchStatus(Some(StatusName(st))) == Some(st)
  {
  }

  /** `batchCreateSchema`'s input; `status` may be absent or any string. */
  datatype BatchCreate = BatchCreate(projectId: string, tonsCO2: real, pricePerTon: real, status: Option<string>)

  predicate BatchCreateValid(b: BatchCreate) {
    && |b.projectId| >= 1
    && b.tonsCO2 >= MinAmount
    && b.pricePerTon >= MinAmount
    && ParseBatchStatus(b.status).Some?
  }

  /** `batchUpdateSchema = batchCreateSchema.partial()`: absent keys pass (the
      AVAILABLE default is not applied to an optional key), present ones are checked. */
  datatype BatchUpdate = BatchUpdate(projectId: Option<string>, tonsCO2: Option<real>, pricePerTon: Option<real>, status: Option<string>)

  predicate BatchUpdateValid(u: BatchUpdate) {
    && (u.projectId.Some? ==> |u.projectId.value| >= 1)
    && (u.tonsCO2.Some? ==> u.tonsCO2.value >= MinAmount)
    && (u.pricePerTon.Some? ==> u.pricePerTon.value >= MinAmount)
    && (u.status.Some? ==> ParseBatchStatus(u.status).Some?)
  }

  /** A valid batch creation is a valid batch update carrying all of its fields. */
  lemma BatchUpdateAcceptsCreate(b: BatchCreate)
    requires BatchCreateValid(b)
    ensures BatchUpdateValid(BatchUpdate(Some(b.projectId), Some(b.tonsCO2), Some(b.pricePerTon), b.status))
  {
  }

  predicate OrderItemValid(i: OrderItemPayload) {
    i.qtyTons >= MinAmount && i.pricePerTon >= MinAmount
  }

  /** `orderCreateSchema`: a buyer name of three or more characters and at least
      one line, every line with quantity and price of at least 0.01. */
  predicate OrderCreateValid(o: CreateOrderPayload) {
    && |o.buyerName| >= MinBuyerNameLength
    && |o.items| >= 1
    && forall k :: 0 <= k < |o.items| ==> OrderItemValid(o.items[k])
  }

  /** `checkoutSchema`: only the buyer name. */
  predicate CheckoutValid(buyerName: string) {
    |buyerName| >= MinBuyerNameLength
  }

  /** The batch part of an ingestion event: `batchCreateSchema.omit({ projectId })`. */
  datatype IngestBatch = IngestBatch(tonsCO2: real, pricePerTon: real, status: Option<string>)

  datatype IngestEvent = IngestEvent(project: ProjectCreate, batch: IngestBatch)

  predicate IngestEventValid(e: IngestEvent) {
    && ProjectCreateValid(e.project)
    && e.batch.tonsCO2 >= MinAmount
    && e.batch.pricePerTon >= MinAmount
    && ParseBatchStatus(e.batch.status).Some?
  }

  /** The batch of an ingestion event, attached to a project. */
  function Attach(b: IngestBatch, projectId: string): BatchCreate {
    BatchCreate(projectId, b.tonsCO2, b.pricePerTon, b.status)
  }

  /** An ingestion event is valid exactly when its project is a valid creation and
      its batch, attached to any project id accepted on creation, is one too. */
  lemma IngestIsProjectPlusBatch(e: IngestEvent, projectId: string)
    requires |projectId| >= 1
    ensures IngestEventValid(e) <==> ProjectCreateValid(e.project) && BatchCreateValid(Attach(e.batch, projectId))
  {
  }
}
