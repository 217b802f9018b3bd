# Carbon-credit marketplace core in Dafny

This project models the client-side core of a carbon-credit marketplace.
Buyers browse reforestation and energy projects. Each project sells credits in
batches, priced per ton of CO2. Buyers reserve quantities in a cart that holds
each line for 15 minutes, then check out one order request for the whole cart.
The model covers:

- **Cart store** (`cart_store.dfy`): add (merging a line for the same batch),
  remove, change quantity, clear, sweep expired lines, and the cart total.
- **Checkout page** (`checkout_page.dfy`): the empty-cart redirect, the shown
  total, the expiry guard, the batched request copying every line, and the
  clear-on-success behaviour. The order service is a function parameter that
  either returns the new order's id or fails.
- **Data store** (`data_store.dfy`): create, patch-by-id and delete of projects,
  batches and orders. It also covers the cascade from a project to its batches,
  the unconditional cancel, the project aggregate, and the reset to the fixtures.
- **Favourites and compare stores** (`favorites_store.dfy`, `ui_store.dfy`): the
  favourites are toggled id lists. The compare list is capped at four ids.
- **Catalogue** (`projects_list_page.dfy`, `project_card.dfy`, `js_math.dfy`):
  the project filter, the compare target, and the card's available batches,
  "from" price and visibility rules.
- **Generic table** (`data_table.dfy`): case-insensitive row search, page
  slicing, the page count, page clamping, and the search-resets-page rule.
- **Reservation countdown** (`format.dfy`): `formatRelativeTime`'s branching
  and the text of each branch.
- **Schemas** (`validators.dfy`): each input schema as a validity predicate.
- **Fixtures** (`mock_data.dfy`): the fixture lists, their lookups and their
  consistency.

Shared pieces:

- `wrappers.dfy` holds `Option` and the spread override.
- `seqs.dfy` holds `filter`, `map`, `find`, `some` and `includes`, with the
  subsequence facts about them.
- `text.dfy` holds ASCII lower-casing, substring search and decimal rendering.
- `domain.dfy` holds the records.
- `lookups.dfy` holds the `find`/`filter`/`slice` lookups that the fixtures and
  the data store share.

Quantities, prices and totals are exact `real`s. Times are whole milliseconds,
and the current time is always a parameter. The stores are classes with `seq`
fields. Each action assigns the result of a pure function of the old lists,
because the source's actions replace whole lists through `set()`. The
properties are proved about those functions.

Where the code and the written design disagree, the model follows the code:

- `addItem` stores the caller's `subtotal` unchanged when it inserts a new
  line (src/store/cart.store.ts:39). The design says that `subtotal ==
  qtyTons * pricePerTon` always holds. `CartStore.AddItemSubtotals` states
  exactly when it survives.
- `cancelOrder` cancels whatever the prior status
  (src/store/data.store.ts:134-140). The design allows cancellation only from
  PENDING.
- The "last orders" of a project are its first five in storage order
  (src/store/data.store.ts:112). The design describes them as the most recent.

## Model

| member | source | states |
|---|---|---|
| Text.HasSubstring | src/features/projects/pages/ProjectsListPage.tsx:46 | `includes` is true exactly when the query occurs at some position of the text |
| Text.Lower | src/features/projects/pages/ProjectsListPage.tsx:46 | `toLowerCase` keeps the length and lowers each ASCII capital, character by character |
| Text.NatToDecimal | src/lib/format.ts:37-39 | a count prints as a non-empty string of decimal digits without a leading zero |
| Text.DecimalRoundTrip | src/lib/format.ts:37-39 | reading the printed digits back gives the number, so printing loses nothing |
| Lookups.ProjectById | src/store/data.store.ts:51 | `find` gives none exactly when no project has the id, and otherwise the first project with it |
| Lookups.BatchById | src/store/data.store.ts:84 | `find` gives none exactly when no batch has the id, and otherwise the first batch with it |
| Lookups.OrderById | src/store/data.store.ts:114 | `find` gives none exactly when no order has the id, and otherwise the first order with it |
| Lookups.ProjectByIdOfUnique | src/store/data.store.ts:51 | with unique ids, looking up a project's id finds that very project |
| Lookups.BatchByIdOfUnique | src/store/data.store.ts:84 | with unique ids, looking up a batch's id finds that very batch |
| Lookups.OrderByIdOfUnique | src/store/data.store.ts:114 | with unique ids, looking up an order's id finds that very order |
| Lookups.BatchesOfProject | src/store/data.store.ts:81-82 | all and only the project's batches, as an order-preserving subsequence in which each kept element keeps all its copies and each dropped one loses all of them |
| Lookups.OrdersOfProject | src/store/data.store.ts:111-112 | all and only the project's orders, as an order-preserving subsequence in which each kept element keeps all its copies and each dropped one loses all of them |
| Lookups.LastOrdersOfProject | src/store/data.store.ts:111-112 | at most 5 orders, all of the project, a prefix of its matching orders, of length min(matching, 5) |
| Lookups.LastOrdersInStorageOrder | src/store/data.store.ts:111-112 | the shown orders are a subsequence of the stored orders |
| MockData.GetProjectById | src/data/mockData.ts:213-215 | none exactly when no fixture project has the id; otherwise the first fixture project with it |
| MockData.GetBatchesByProjectId | src/data/mockData.ts:217-219 | all and only the fixture batches of the project, in fixture order, with every copy kept |
| MockData.GetOrdersByProjectId | src/data/mockData.ts:221-223 | fixture orders of the project forming a prefix of its matching orders, of length min(matching, 5) |
| MockData.BatchesReferenceProjects | src/data/mockData.ts:3-123 | every fixture batch's project id names a fixture project |
| MockData.BatchIdsUnique | src/data/mockData.ts:87-123 | no two fixture batches share an id |
| MockData.OrdersMatchTheirBatches | src/data/mockData.ts:87-211 | every fixture order was placed on a fixture batch of its own project, with total = quantity × that batch's price |
| MockData.OrderResolves | src/data/mockData.ts:87-211 | looking up each fixture order's batch id finds the batch it was placed on |
| MockData.ProcessedExactlyWhenPaid | src/data/mockData.ts:125-211 | a fixture order has `processedAt` exactly when it is PAID |
| Validators.UpdateAcceptsAnySubset | src/lib/validators.ts:4-12 | any subset of a valid project creation's fields is a valid update; the full update is valid exactly when the creation is |
| Validators.UpdateChecksEachPresentField | src/lib/validators.ts:12 | an update is valid exactly when each of its present fields is valid on its own |
| Validators.ParseBatchStatus | src/lib/validators.ts:19 | an absent status reads as AVAILABLE; a present one is accepted exactly when it is one of the three names |
| Validators.StatusNameRoundTrip | src/lib/validators.ts:19 | every status is read back from its wire name |
| Validators.BatchUpdateAcceptsCreate | src/lib/validators.ts:15-22 | a valid batch creation is a valid batch update carrying all its fields |
| Validators.IngestIsProjectPlusBatch | src/lib/validators.ts:42-45 | an ingestion event is valid exactly when its project is a valid creation and its batch, with any accepted project id attached, is too |
| Validators.ProjectCreateValid | src/lib/validators.ts:4-10 | a project creation passes exactly when the name has at least 3 characters, the location at least 2, and any hectares are at least 0 |
| Validators.ProjectUpdateValid | src/lib/validators.ts:12 | a project update passes exactly when each present field passes the creation rule for that field |
| Validators.BatchCreateValid | src/lib/validators.ts:15-20 | a batch creation passes exactly when the project id is non-empty, tons and price are at least 0.01, and the status is absent or one of the three names |
| Validators.BatchUpdateValid | src/lib/validators.ts:22 | a batch update passes exactly when each present field passes its creation rule |
| Validators.OrderItemValid | src/lib/validators.ts:28-33 | an order line passes exactly when quantity and price are at least 0.01 |
| Validators.OrderCreateValid | src/lib/validators.ts:25-35 | an order request passes exactly when the buyer name has at least 3 characters and there is at least one line, every line passing |
| Validators.CheckoutValid | src/lib/validators.ts:37-39 | the checkout form passes exactly when the buyer name has at least 3 characters |
| Validators.IngestEventValid | src/lib/validators.ts:42-45 | an ingestion event passes exactly when its project is a valid creation and its batch has tons and price of at least 0.01 and an accepted status |
| CartStore.HasBatchIff | src/store/cart.store.ts:22 | the `find` for an existing line succeeds exactly when some line has the batch id |
| CartStore.Merged | src/store/cart.store.ts:28-33 | a merged line keeps batch, project, name and price, sums the quantities, recomputes the subtotal and takes the new expiry |
| CartStore.WithItemAdded | src/store/cart.store.ts:20-42 | merge path: same length, matching lines merged, others unchanged; insert path: the line appended with expiry now + 15 min; the batch is in the cart afterwards; unique batch ids are kept |
| CartStore.WithoutBatch | src/store/cart.store.ts:44-48 | no line of the batch remains; every other line stays, in order and with every copy; an absent batch changes nothing, a present one shortens the cart; unique batch ids and consistent subtotals are kept |
| CartStore.WithQuantity | src/store/cart.store.ts:50-58 | matching lines get the new quantity and subtotal quantity × price, the others are unchanged, an absent batch changes nothing, and unique batch ids are kept |
| CartStore.Unexpired | src/store/cart.store.ts:64-69 | exactly the lines with expiry strictly after now, in order and with every copy; unique batch ids and consistent subtotals are kept |
| CartStore.SweepIdempotent | src/store/cart.store.ts:64-69 | sweeping twice at the same instant is sweeping once |
| CartStore.SweepIsStrict | src/store/cart.store.ts:67 | a line expiring exactly now is swept |
| CartStore.Total | src/store/cart.store.ts:71-73 | the empty cart totals 0, and non-negative subtotals give a non-negative total |
| CartStore.TotalAppend | src/store/cart.store.ts:71-73 | the total of a concatenation is the sum of the totals |
| CartStore.TotalAfterInsert | src/store/cart.store.ts:37-41 | adding a new batch raises the total by the caller's subtotal |
| CartStore.TotalAfterRemove | src/store/cart.store.ts:44-48 | with unique batch ids, removing a line lowers the total by its subtotal |
| CartStore.AddItemSubtotals | src/store/cart.store.ts:20-42 | from consistent subtotals, adding keeps them consistent exactly when it merges or the inserted line's subtotal is quantity × price |
| CartStore.UpdateQuantitySubtotals | src/store/cart.store.ts:50-58 | changing a quantity keeps every subtotal equal to quantity × price |
| CartStore.Cart.AddItem | src/store/cart.store.ts:20-42 | the lines become `WithItemAdded` of the old lines, and one line per batch is kept |
| CartStore.Cart.RemoveItem | src/store/cart.store.ts:44-48 | the lines become `WithoutBatch` of the old lines, and one line per batch is kept |
| CartStore.Cart.UpdateQuantity | src/store/cart.store.ts:50-58 | the lines become `WithQuantity` of the old lines, and one line per batch is kept |
| CartStore.Cart.ClearCart | src/store/cart.store.ts:60-62 | the cart is empty |
| CartStore.Cart.RemoveExpiredItems | src/store/cart.store.ts:64-69 | the lines become `Unexpired` of the old lines at the given instant, and one line per batch is kept |
| CartStore.Cart.GetTotal | src/store/cart.store.ts:71-73 | the total of the current lines: 0 for an empty cart, and non-negative when every subtotal is |
| CheckoutPage.ExpiredItems | src/features/orders/pages/CheckoutPage.tsx:34 | exactly the lines expiring at or before now, in order and with every copy |
| CheckoutPage.HasExpiredIff | src/features/orders/pages/CheckoutPage.tsx:34-36 | the guard fires exactly when some line expires at or before now |
| CheckoutPage.GuardAgreesWithSweep | src/features/orders/pages/CheckoutPage.tsx:34-43 | checkout refuses a cart exactly when a sweep at the same instant would remove a line from it |
| CheckoutPage.BuildPayload | src/features/orders/pages/CheckoutPage.tsx:48-56 | one request with the buyer name and one line per cart line, copying batch, project, quantity and price |
| CheckoutPage.PayloadValidity | src/lib/validators.ts:25-39 | the built request passes the order schema exactly when the buyer name passes the checkout form, the cart is non-empty and every line has quantity and price ≥ 0.01 |
| CheckoutPage.Render | src/features/orders/pages/CheckoutPage.tsx:29-76 | redirect to the cart exactly when it is empty; otherwise the form shows all lines and their total |
| CheckoutPage.Checkout.OnSubmit | src/features/orders/pages/CheckoutPage.tsx:31-71 | an expired line: refused, nothing sent, nothing changed; otherwise exactly one request copying the cart is sent; on success the cart is cleared and the page goes to /orders; on failure the cart is kept |
| CheckoutPage.Checkout.Submit | src/features/orders/pages/CheckoutPage.tsx:21-27 | an invalid buyer name sends nothing; an order is placed only for a valid name, and it empties the cart; otherwise the cart is kept |
| DataStore.AppendFreshProjectId | src/store/data.store.ts:53-61 | appending a project with a fresh id keeps project ids unique |
| DataStore.CreatedProjectIsFound | src/store/data.store.ts:53-61 | after a create under a fresh id, looking up that id finds the new project |
| DataStore.CreatedBatchIsFound | src/store/data.store.ts:86-94 | after a create under a fresh id, looking up that id finds the new batch, and ids stay unique |
| DataStore.CreatedOrderIsFound | src/store/data.store.ts:116-124 | after a create under a fresh id, looking up that id finds the new order, and ids stay unique |
| DataStore.UpdatedProjects | src/store/data.store.ts:63-69 | same length; projects with the id are patched, the others are unchanged |
| DataStore.UpdatedBatches | src/store/data.store.ts:96-102 | same length; batches with the id are patched, the others are unchanged |
| DataStore.UpdatedOrders | src/store/data.store.ts:126-132 | same length; orders with the id are patched, the others are unchanged |
| DataStore.UpdateUnknownProject | src/store/data.store.ts:63-69 | an id no project carries leaves the list unchanged |
| DataStore.UpdateUnknownBatch | src/store/data.store.ts:96-102 | an id no batch carries leaves the list unchanged |
| DataStore.UpdateUnknownOrder | src/store/data.store.ts:126-132 | an id no order carries leaves the list unchanged |
| DataStore.UpdateProjectsIdempotent | src/store/data.store.ts:63-69 | repeating the same update changes nothing more, even when the patch renames the project |
| DataStore.UpdateBatchesIdempotent | src/store/data.store.ts:96-102 | repeating the same batch update changes nothing more |
| DataStore.UpdateOrdersIdempotent | src/store/data.store.ts:126-132 | repeating the same order update changes nothing more |
| DataStore.ProjectsWithout | src/store/data.store.ts:73 | no project with the id remains; every other project stays, in order and with every copy |
| DataStore.BatchesOutsideProject | src/store/data.store.ts:74 | no batch of the deleted project remains; every other batch stays, in order and with every copy |
| DataStore.BatchesWithout | src/store/data.store.ts:104-106 | no batch with the id remains, the rest stay in order and with every copy, and an unknown id changes nothing |
| DataStore.DeleteProjectKeepsReferences | src/store/data.store.ts:71-76 | if every batch pointed at a stored project before a deletion, every batch still does afterwards |
| DataStore.CancelledOrders | src/store/data.store.ts:134-140 | same length; orders with the id become CANCELLED whatever their status; every other order and every other field is unchanged |
| DataStore.CancelIsStatusUpdate | src/store/data.store.ts:126-140 | cancelling is the update with a status-only patch |
| DataStore.CancelIdempotent | src/store/data.store.ts:134-140 | cancelling twice is cancelling once |
| DataStore.ProjectAggregate | src/store/data.store.ts:143-151 | null exactly when no project has the id; otherwise the first project with it (the `getProjectById` lookup), with the batch lookup and the last-orders lookup |
| DataStore.DeletedProjectHasNoAggregate | src/store/data.store.ts:71-76 | after a project is deleted there is no aggregate for it |
| DataStore.AggregateBelongsToProject | src/store/data.store.ts:143-151 | the aggregate's batches and orders all belong to the project, with at most 5 orders |
| DataStore.Store.constructor | src/store/data.store.ts:44-46 | the store starts with the fixtures |
| DataStore.Store.ResetToMockData | src/store/data.store.ts:154-160 | all three lists are the fixtures again |
| DataStore.Store.CreateProject | src/store/data.store.ts:53-61 | exactly one project with the given fields, id and timestamp is appended, and it is returned; the other lists are unchanged |
| DataStore.Store.UpdateProject | src/store/data.store.ts:63-69 | the projects become `UpdatedProjects` of the old ones; the other lists are unchanged |
| DataStore.Store.DeleteProject | src/store/data.store.ts:71-76 | the project and its batches are removed; orders are unchanged |
| DataStore.Store.CreateBatch | src/store/data.store.ts:86-94 | exactly one batch is appended and returned; the other lists are unchanged |
| DataStore.Store.UpdateBatch | src/store/data.store.ts:96-102 | the batches become `UpdatedBatches` of the old ones; the other lists are unchanged |
| DataStore.Store.DeleteBatch | src/store/data.store.ts:104-106 | the batches become `BatchesWithout` of the old ones; the other lists are unchanged |
| DataStore.Store.CreateOrder | src/store/data.store.ts:116-124 | exactly one order is appended and returned; the other lists are unchanged |
| DataStore.Store.UpdateOrder | src/store/data.store.ts:126-132 | the orders become `UpdatedOrders` of the old ones; the other lists are unchanged |
| DataStore.Store.CancelOrder | src/store/data.store.ts:134-140 | the orders become `CancelledOrders` of the old ones; projects and batches are unchanged |
| DataStore.Store.GetOrdersByProjectId | src/store/data.store.ts:111-112 | stored orders of the project forming a prefix of its matching orders, of length min(matching, 5) |
| DataStore.Store.GetProjectAggregate | src/store/data.store.ts:143-151 | null exactly when no stored project has the id; otherwise the first such project with its batches and its first five orders |
| FavoritesStore.Toggled | src/store/favorites.store.ts:19-26 | the id's membership flips and no other id's does; an absent id is appended; a present one is removed, leaving a shorter subsequence |
| FavoritesStore.ToggleTwice | src/store/favorites.store.ts:19-26 | toggling twice restores every membership, and restores the list itself when the id was absent |
| FavoritesStore.ToggleKeepsNoDuplicates | src/store/favorites.store.ts:19-35 | a duplicate-free list stays duplicate-free |
| FavoritesStore.Favorites.ToggleProject | src/store/favorites.store.ts:19-26 | the favourite projects are toggled, the favourite batches are unchanged, and no duplicates appear |
| FavoritesStore.Favorites.ToggleBatch | src/store/favorites.store.ts:28-35 | the favourite batches are toggled, the favourite projects are unchanged, and no duplicates appear |
| FavoritesStore.Favorites.IsProjectFavorite | src/store/favorites.store.ts:37-39 | true exactly when the id is a favourite project |
| FavoritesStore.Favorites.IsBatchFavorite | src/store/favorites.store.ts:41-43 | true exactly when the id is a favourite batch |
| UiStore.WithCompared | src/store/ui.store.ts:18-23 | appends the id only when there are fewer than 4 and it is absent; otherwise the list is unchanged |
| UiStore.AddKeepsCompareListOk | src/store/ui.store.ts:18-23 | adding keeps the list at most 4 long and duplicate-free |
| UiStore.RemoveKeepsCompareListOk | src/store/ui.store.ts:25-27 | removing keeps the list at most 4 long and duplicate-free |
| UiStore.AddThenRemove | src/store/ui.store.ts:18-27 | removing a batch that was absent before an add gives back the list from before the add |
| UiStore.Ui.SetCompareDrawerOpen | src/store/ui.store.ts:16 | the drawer flag is set and the compare list is unchanged |
| UiStore.Ui.AddToCompare | src/store/ui.store.ts:18-23 | the list becomes `WithCompared` of the old one, and the invariant is kept |
| UiStore.Ui.RemoveFromCompare | src/store/ui.store.ts:25-27 | the id is removed, the others keep their order, and the invariant is kept |
| UiStore.Ui.ClearCompare | src/store/ui.store.ts:29 | the list is empty and the drawer is untouched |
| JsMath.Min | src/features/projects/pages/ProjectsListPage.tsx:61 | `Math.min` is Infinity for no prices, and otherwise the least price |
| JsMath.Max | src/features/projects/pages/ProjectsListPage.tsx:62 | `Math.max` is -Infinity for no prices, and otherwise the greatest price |
| JsMath.MinBelowIff | src/features/projects/pages/ProjectsListPage.tsx:64 | the minimum is below a bound exactly when some price is |
| JsMath.MaxAboveIff | src/features/projects/pages/ProjectsListPage.tsx:65 | the maximum is above a bound exactly when some price is |
| ProjectsListPage.ProjectMatchesIff | src/features/projects/pages/ProjectsListPage.tsx:43-69 | the filter keeps a project exactly when every condition holds: the text filters match when non-empty; the certifier matches when both sides have one; some own batch has the status; all own batches are within the price bounds (vacuous without batches) |
| ProjectsListPage.FilteredProjects | src/features/projects/pages/ProjectsListPage.tsx:43-69 | exactly the matching projects, as an order-preserving subsequence in which each kept element keeps all its copies and each dropped one loses all of them |
| ProjectsListPage.NoFiltersKeepAll | src/features/projects/pages/ProjectsListPage.tsx:43-69 | with the initial empty filters every project is listed |
| ProjectsListPage.CompareTarget | src/features/projects/pages/ProjectsListPage.tsx:102-103 | none exactly when the project has no AVAILABLE batch; otherwise the first of its batches that is AVAILABLE |
| ProjectsListPage.CompareOfferedIffTarget | src/features/projects/pages/ProjectsListPage.tsx:110-113 | a card shows the compare button exactly when its project has a compare target |
| ProjectsListPage.OnCompare | src/features/projects/pages/ProjectsListPage.tsx:110-113 | the target batch is added to the compare list and the drawer opens |
| ProjectCard.AvailableBatches | src/features/projects/components/ProjectCard.tsx:18 | exactly the AVAILABLE batches, in order and with every copy |
| ProjectCard.AvailableCountIsCount | src/features/projects/components/ProjectCard.tsx:18-56 | the "available lots" figure counts the AVAILABLE batches one position at a time |
| ProjectCard.MinPrice | src/features/projects/components/ProjectCard.tsx:19-21 | 0 with no available batch; otherwise the price of some available batch and no more than any available batch's price |
| ProjectCard.ShowFromPriceIff | src/features/projects/components/ProjectCard.tsx:58 | the "from" price shows exactly when some batch is available and every available batch has a positive price |
| ProjectCard.AvailableTonsBounded | src/features/projects/components/ProjectCard.tsx:66-69 | with non-negative tons, the badge's available tons lie between 0 and the tons of all batches |
| ProjectCard.ShowTonsBadge | src/features/projects/components/ProjectCard.tsx:66 | the tons badge shows exactly when some batch is AVAILABLE |
| ProjectCard.ShowCompare | src/features/projects/components/ProjectCard.tsx:82 | the compare button shows exactly when a compare action is given and some batch is AVAILABLE |
| DataTable.FilteredRows | src/components/DataTable.tsx:36-40 | exactly the rows with a value containing the search text, ignoring case, in order and with every copy |
| DataTable.EmptySearchKeepsAll | src/components/DataTable.tsx:36-40 | an empty search keeps every row that has a value |
| DataTable.Slice | src/components/DataTable.tsx:42-45 | `slice` clamps both bounds to the length and is empty for a backwards range |
| DataTable.Paginated | src/components/DataTable.tsx:42-45 | at most n rows: rows page·n onward up to min((page+1)·n, len) |
| DataTable.TotalPages | src/components/DataTable.tsx:47 | the least page count whose pages hold every row, that is ceil(len / n) |
| DataTable.RowOnItsPage | src/components/DataTable.tsx:42-47 | row i is entry i mod n of page i div n, and that page exists |
| DataTable.PreviousPage | src/components/DataTable.tsx:115 | never below 0; one page back from any page after the first |
| DataTable.NextPage | src/components/DataTable.tsx:123 | never above totalPages − 1 or page + 1, and equal to one of them |
| DataTable.PagingStaysInRange | src/components/DataTable.tsx:115-123 | from a page in range, previous and next stay in range |
| DataTable.ControlsShownIff | src/components/DataTable.tsx:104 | the pager shows exactly when there are more rows than fit on one page |
| DataTable.RangeStart | src/components/DataTable.tsx:107 | the first shown figure counts from 1 |
| DataTable.RangeStartIsFirstRow | src/components/DataTable.tsx:107 | on a page in range, the first figure is the 1-based position of the page's first row |
| DataTable.RangeEnd | src/components/DataTable.tsx:108 | the shown range end is at most the row count |
| DataTable.RangeCountsPage | src/components/DataTable.tsx:107-108 | on a page in range, the shown "a – b" counts exactly the rows on the page |
| DataTable.Table.SetSearch | src/components/DataTable.tsx:57-60 | the search text is set and the page goes back to 0 |
| DataTable.Table.Previous | src/components/DataTable.tsx:115 | the page becomes `PreviousPage` of the old page |
| DataTable.Table.Next | src/components/DataTable.tsx:123 | the page becomes `NextPage` of the old page |
| Format.Classify | src/lib/format.ts:28-40 | "expired" exactly when the target is in the past; seconds exactly under a minute; minutes exactly under an hour; the figures are the floor of the remaining time in each unit, with minutes below 60 beside hours |
| Format.FormatRelativeTime | src/lib/format.ts:28-40 | "Expirado" exactly when the target is before now; under a minute the whole seconds and `s`; under an hour the whole minutes and `min`; from an hour on the whole hours, `h `, the minutes past the hour and `min` |
| Format.SecondsReadBack | src/lib/format.ts:37 | under a minute, the text is decimal digits then `s`, and the digits read back as the whole seconds left |
| Format.MinutesReadBack | src/lib/format.ts:38 | under an hour, the text is decimal digits then `min`, and the digits read back as the whole minutes left |
| Format.HoursReadBack | src/lib/format.ts:39 | from an hour on, the text splits at `h ` before a closing `min` into two numbers that read back as the whole hours left and the minutes past them |
| Format.HoursTextReadBack | src/lib/format.ts:39 | the text `<h>h <m>min` splits back into h and m |
| Format.NestedFloors | src/lib/format.ts:31-33 | flooring to seconds, then to minutes, then to hours equals flooring straight to minutes and to hours |
| Format.HoursAndMinutes | src/lib/format.ts:33-39 | the minutes past the hour are below 60, and hours × 60 plus them is the whole minutes left |

## Left out

- Rendering, routing, layout, toasts and the `submitting` spinner are left
  out. They are presentation only; the flag itself is modelled.
- The store timers are left out. These are the 30-second background sweep
  and the simulated loading delays. The sweep is the explicit call
  `RemoveExpiredItems(now)`.
- Persistence to localStorage is left out. It is I/O.
- REST calls, the idempotency key and the HTTP error handling are left out.
  They are network I/O. `ordersApi.create` is the `create` parameter, which
  succeeds with an id or fails.
- New ids and timestamps are parameters. The source builds them from
  `Date.now()`, `Math.random()` and `new Date().toISOString()`, which are a
  clock and randomness. The `Created…IsFound` lemmas take a fresh id as a
  hypothesis; the source does not guarantee one. Order ids in particular are
  `ord-` plus the last six digits of `Date.now()`
  (src/store/data.store.ts:119), which repeat every 1 000 000 ms. After such a
  collision `getOrderById` finds the older order, and `updateOrder` and
  `cancelOrder` patch both. The model covers that case: `OrderById` returns the
  first match, and `UpdatedOrders` and `CancelledOrders` patch every order with
  the id. What it does not promise is that a created order is found again.
- CheckoutPage.Checkout.OnSubmit: treats `await ordersApi.create(...)`
  (src/features/orders/pages/CheckoutPage.tsx:47) as one step. In the source
  the request can last up to its 10 s timeout (src/lib/api.ts:6). Meanwhile
  the 30-second sweep (src/store/cart.store.ts:82-84) or another cart action
  can change the cart. The model does not capture that interleaving: the cart
  it clears on success is the one it checked and copied.
- The schemas' length bounds count `|s|`, the Unicode scalar values of the
  string. zod's `.min(n)` on a string counts UTF-16 code units
  (src/lib/validators.ts:5-6,26,38). The two differ for characters outside
  the Basic Multilingual Plane, such as emoji: one such character counts as 2
  for zod and 1 here.
- Floating-point rounding is left out. Tons, prices and totals are exact reals.
- `toFixed(2)` and the `Intl` currency, tons and date formatters are left out.
  They are locale formatting.
- The thin UI wrappers are left out. The cart page repeats the expiry
  comparison. The compare drawer and project detail page forward to `addItem`
  with subtotal = tons × price. The orders pages only hide the cancel button.
  The filter and ingestion forms are form-state glue.
- Patches whose required fields are explicitly set to `undefined` are left
  out. A `Partial<T>` could carry one, but the model's patch for a required
  field is either absent or a value.
- DataTable.Paginated: requires a page size above 0. With a page size of 0,
  JavaScript would divide by zero and report Infinity or NaN pages.
- DataTable.FilteredRows: a row is seen through the strings of its values.
  How `String(value)` renders numbers and dates is not modelled.
- Text.Lower: lower-cases ASCII capitals only. Unicode case mapping is not
  modelled.
- Reading persisted or fetched data that breaks the invariants is out of
  scope. Duplicate favourites or more than 4 compare ids would be examples.
  The store methods promise to keep the invariants, not to restore them.
