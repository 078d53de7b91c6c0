// What each packing, receipt and shipping request does to the tables: the
// guard it checks and, when the guard holds, the new state.
//
// A request that fails its role, brand-scope or request-shape checks leaves the
// tables alone and is not modelled; `authorised` says whether the chosen
// factory is enabled, serves the brand and is assigned to the product.
module PackingHandlers {
  import opened Wrappers
  import opened PackingTables

  const MAX_SAFE_INTEGER: nat := 9007199254740991
  const MAX_BIND_CODES: nat := 5000

  // An account of a factory is tied to it.
  datatype Operator = FactoryUser(user: Id, factory: Id) | Staff(user: Id)

  datatype StockMode = AnyMode | Boxed | NoBox

  datatype Command =
    | CreateProduct(brand: Id, batch: string, boxSize: int)
    | EditProduct(product: Id, batch: string, boxSize: int)
    | DeleteProduct(product: Id)
    | GenerateBox(boxProduct: Option<Id>, brand: Id, batch: string)
    | GenerateItem(itemProduct: Option<Id>, brand: Id, batch: string)
    | InsertBox(boxProduct: Option<Id>, brand: Id, batch: string)
    | InsertItem(itemProduct: Option<Id>, brand: Id, batch: string)
    | SetProduct(box: Id, product: Id, op: Operator, requested: Option<Id>, boxSize: int, batch: string, authorised: bool)
    | Bind(box: Id, codes: set<Id>, op: Operator, requested: Option<Id>, authorised: bool, now: nat)
    | Scan(box: Id, item: Id, op: Operator, requested: Option<Id>, boxSize: int, authorised: bool, now: nat)
    | Confirm(box: Id, op: Operator, requested: Option<Id>, authorised: bool, now: nat)
    | ScanNobox(item: Id, product: Id, op: Operator, requested: Option<Id>, batch: string, authorised: bool, now: nat)
    | ShipBox(box: Id, distributor: Id, distributorBrand: Option<Id>, now: nat)
    | ShipItem(item: Id, distributor: Id, distributorBrand: Option<Id>, now: nat)
    | CancelShipBox(box: Id)
    | CancelShipItem(item: Id)
    | Unbind(item: Id)
    | CancelStockBox(box: Id, mode: StockMode)
    | CancelStockItem(item: Id, mode: StockMode)
    | InvalidateBox(box: Id)
    | InvalidateItem(item: Id)
    | DeleteBox(box: Id)
    | DeleteItem(item: Id)
    | VerifyScan(item: Id, now: nat)

  // Refused: a guard of the handler said no.  Repeated: a repeated scan, which
  // is refused but logged.  Conflict: a trigger aborted the transaction.
  datatype Reply = Done | Refused | Repeated | Conflict

  datatype Outcome = Outcome(state: State, reply: Reply)

  /******* Which factory receives the goods *******/

  // resolvePackingFactory
  function PackingFactory(op: Operator, requested: Option<Id>, existing: Option<Id>, authorised: bool): Option<Id> {
    var factory := match op
      case FactoryUser(_, f) => Some(f)
      case Staff(_) => Coalesce(requested, existing);
    if factory.Some? && authorised && (existing.Some? ==> existing == factory) then factory else None
  }

  // operationFactory
  function BindFactory(op: Operator, requested: Option<Id>, existing: Option<Id>, authorised: bool): Option<Id> {
    match op
    case FactoryUser(_, f) =>
      if authorised && (existing.Some? ==> existing.value == f) then Some(f) else None
    case Staff(_) =>
      if existing.Some? then
        if requested.Some? && requested != existing then None else existing
      else if authorised then requested
      else None
  }

  /******* Rows as the statements rewrite them *******/

  // The item as a bind or a scan into box `b` leaves it.
  function BoundInto(b: Id, box: Box, brand: Option<Id>, item: Item, factory: Id, now: nat): Item {
    item.(box := Some(b), product := box.product, brand := Coalesce(item.brand, brand), batch := box.batch,
    status := Scanned, boxedAt := Some(now), factory := Some(factory))
  }

  function BrandOf(products: map<Id, Product>, product: Option<Id>): Option<Id> {
    if product.Some? && product.value in products then products[product.value].brand else None
  }

  // clearItemReceipt
  function ClearedItem(products: map<Id, Product>, item: Item): Item {
    item.(brand := Coalesce(item.brand, BrandOf(products, item.product)),
    box := None, product := None, batch := "", status := InStock, boxedAt := None, factory := None,
    distributor := None, shippedAt := None)
  }

  // clearBoxReceipt
  function ClearedBox(products: map<Id, Product>, box: Box): Box {
    box.(brand := Coalesce(box.brand, BrandOf(products, box.product)),
    product := None, batch := "", boxSize := 0, itemCount := 0, status := BoxInStock, factory := None,
    confirmedAt := None, confirmedBy := None, distributor := None, shippedAt := None)
  }

  function ShippedItem(item: Item, distributor: Id, now: nat): Item {
    item.(status := Shipped, distributor := Some(distributor), shippedAt := Some(now))
  }

  function UnshippedItem(item: Item): Item {
    item.(status := if item.status == Invalid then Invalid else Scanned, distributor := None, shippedAt := None)
  }

  // COALESCE(row.brand_id, product.brand_id)
  function EffectiveBrand(s: State, brand: Option<Id>, product: Option<Id>): Option<Id> {
    Coalesce(brand, BrandOf(s.products, product))
  }

  // a && b && a !== b
  predicate Differ(a: Option<Id>, b: Option<Id>) {
    a.Some? && b.Some? && a != b
  }

  /******* Products and codes *******/

  predicate CanDeleteProduct(s: State, p: Id) {
    && p in s.products
    && (forall b :: b in s.boxes ==> s.boxes[b].product != Some(p))
    && (forall i :: i in s.items ==> s.items[i].product != Some(p))
  }

  function FreshBox(product: Option<Id>, brand: Option<Id>, batch: string): Box {
    Box(product, brand, batch, 0, 0, BoxInStock, None, None, None, None, None)
  }

  function FreshItem(product: Option<Id>, brand: Option<Id>, batch: string): Item {
    Item(None, product, brand, batch, InStock, None, None, None, None, None)
  }

  function NewBox(s: State, product: Option<Id>, brand: Id, batch: string): Box {
    FreshBox(product, if product.Some? then BrandOf(s.products, product) else Some(brand), batch)
  }

  function NewItem(s: State, product: Option<Id>, brand: Id, batch: string): Item {
    FreshItem(product, if product.Some? then BrandOf(s.products, product) else Some(brand), batch)
  }

  // A generation checks its product once, before its first code.
  predicate CanGenerate(s: State, product: Option<Id>, batch: string) {
    product.Some? ==> product.value in s.products && batch != ""
  }

  predicate BoxHasHistory(s: State, b: Id)
    requires b in s.boxes
  {
    var box := s.boxes[b];
    || box.status == BoxInvalid || box.status == BoxShipped || box.distributor.Some? || box.shippedAt.Some?
    || HasBoxShipment(s.shipments, b) || b in s.packedBoxes
  }

  predicate CanDeleteBox(s: State, b: Id) {
    b in s.boxes && !BoxHasHistory(s, b) && Children(s.items, b) == {}
  }

  predicate ItemHasHistory(s: State, i: Id)
    requires i in s.items
  {
    var item := s.items[i];
    || item.status == Invalid || item.status == Shipped || item.distributor.Some? || item.shippedAt.Some?
    || item.boxedAt.Some? || item.scannedAt.Some?
    || HasOwnRow(s.shipments, i) || i in s.packedItems
  }

  predicate CanDeleteItem(s: State, i: Id) {
    i in s.items && !ItemHasHistory(s, i)
  }

  /******* Receipt *******/

  function EffectiveSize(requested: int, stored: int, productSize: int): int {
    if requested != 0 then requested else if stored != 0 then stored else productSize
  }

  predicate CanSetProduct(s: State, b: Id, p: Id, op: Operator, requested: Option<Id>, boxSize: int, batch: string, authorised: bool) {
    && b in s.boxes && p in s.products
    && var box, product := s.boxes[b], s.products[p];
    var size := EffectiveSize(boxSize, 0, product.boxSize);
    && box.status == BoxInStock
    && box.confirmedAt.None?
    && !Differ(box.brand, product.brand)
    && PackingFactory(op, requested, box.factory, authorised).Some?
    && (forall i :: i in s.items && s.items[i].box == Some(b) && s.items[i].product.Some? ==> s.items[i].product == Some(p))
    && (batch != "" || box.batch != "")
    && 1 <= size <= MAX_SAFE_INTEGER && |Children(s.items, b)| <= size
  }

  function BoxWithProduct(s: State, b: Id, p: Id, op: Operator, requested: Option<Id>, boxSize: int, batch: string, authorised: bool): Box
    requires CanSetProduct(s, b, p, op, requested, boxSize, batch, authorised)
  {
    var box, product := s.boxes[b], s.products[p];
    box.(product := Some(p), brand := Coalesce(product.brand, box.brand),
    batch := if batch != "" then batch else box.batch,
    boxSize := EffectiveSize(boxSize, 0, product.boxSize),
    factory := PackingFactory(op, requested, box.factory, authorised))
  }

  predicate CanBind(s: State, b: Id, codes: set<Id>, op: Operator, requested: Option<Id>, authorised: bool) {
    && 1 <= |codes| <= MAX_BIND_CODES
    && b in s.boxes
    && var box := s.boxes[b];
    && box.status == BoxInStock && box.distributor.None?
    && box.confirmedAt.None?
    && box.product.Some? && box.product.value in s.products
    && var factory := BindFactory(op, requested, box.factory, authorised);
    && factory.Some?
    && (forall i :: i in codes ==> i in s.items)
    && (forall i :: i in codes ==> BindableItem(s, b, i, factory.value))
    && (box.boxSize > 0 ==> |Children(s.items, b)| + |NewChildren(s.items, codes)| <= box.boxSize)
    && !BoxConflict(s, b)
  }

  predicate BindableItem(s: State, b: Id, i: Id, factory: Id)
    requires b in s.boxes && i in s.items
  {
    var box, item := s.boxes[b], s.items[i];
    && (item.box.Some? ==> item.box == Some(b))
    && !Differ(item.factory, Some(factory))
    && item.status != Invalid && !HasShipment(s, i)
    && !Differ(EffectiveBrand(s, item.brand, item.product), EffectiveBrand(s, box.brand, box.product))
    && !Differ(item.product, box.product)
    && (item.batch != "" ==> item.batch == box.batch)
    && !(item.box.None? && item.boxedAt.Some?)
  }

  // The requested items that are not in a box yet.
  function NewChildren(items: map<Id, Item>, codes: set<Id>): set<Id> {
    set i | i in codes && i in items && items[i].box.None?
  }

  function BoundItems(items: map<Id, Item>, b: Id, box: Box, brand: Option<Id>, codes: set<Id>, factory: Id, now: nat): map<Id, Item> {
    map i | i in items ::
      if i in codes && items[i].box.None? then BoundInto(b, box, brand, items[i], factory, now) else items[i]
  }

  function DoBind(s: State, b: Id, codes: set<Id>, factory: Id, now: nat): State
    requires b in s.boxes
  {
    var items := BoundItems(s.items, b, s.boxes[b], EffectiveBrand(s, s.boxes[b].brand, s.boxes[b].product), codes, factory, now);
    var added := NewChildren(s.items, codes);
    s.(items := items,
    boxes := s.boxes[b := s.boxes[b].(factory := Some(factory), itemCount := |Children(items, b)|)],
    packedBoxes := if added == {} then s.packedBoxes else s.packedBoxes + {b},
    packedItems := s.packedItems + added)
  }

  // The guards of a single scan up to the repeated-scan test.
  predicate ScanReaches(s: State, b: Id, i: Id, op: Operator, requested: Option<Id>, boxSize: int, authorised: bool) {
    && b in s.boxes && i in s.items
    && var box, item := s.boxes[b], s.items[i];
    && box.status == BoxInStock
    && box.confirmedAt.None?
    && box.product.Some? && box.product.value in s.products
    && !BoxConflict(s, b)
    && var factory := PackingFactory(op, requested, box.factory, authorised);
    && factory.Some?
    && 1 <= EffectiveSize(boxSize, box.boxSize, s.products[box.product.value].boxSize) <= MAX_SAFE_INTEGER
    && box.batch != ""
    && !Differ(item.factory, factory)
  }

  predicate CanScan(s: State, b: Id, i: Id, op: Operator, requested: Option<Id>, boxSize: int, authorised: bool) {
    && ScanReaches(s, b, i, op, requested, boxSize, authorised)
    && var box, item := s.boxes[b], s.items[i];
    && |Children(s.items, b)| < EffectiveSize(boxSize, box.boxSize, s.products[box.product.value].boxSize)
    && item.box.None?
    && !HasShipment(s, i)
    && item.status != Invalid
    && item.boxedAt.None?
    && (item.batch != "" ==> item.batch == box.batch)
    && !Differ(EffectiveBrand(s, item.brand, item.product), EffectiveBrand(s, box.brand, box.product))
    && !Differ(item.product, box.product)
  }

  function DoScan(s: State, b: Id, i: Id, op: Operator, requested: Option<Id>, boxSize: int, authorised: bool, now: nat): State
    requires CanScan(s, b, i, op, requested, boxSize, authorised)
  {
    var box := s.boxes[b];
    var factory := PackingFactory(op, requested, box.factory, authorised);
    s.(items := s.items[i := BoundInto(b, box, EffectiveBrand(s, box.brand, box.product), s.items[i], factory.value, now)],
    boxes := s.boxes[b := box.(itemCount := |Children(s.items, b)| + 1,
    boxSize := EffectiveSize(boxSize, box.boxSize, s.products[box.product.value].boxSize), factory := factory)],
    packedBoxes := s.packedBoxes + {b},
    packedItems := s.packedItems + {i})
  }

  predicate CanConfirm(s: State, b: Id, op: Operator, requested: Option<Id>, authorised: bool) {
    && b in s.boxes
    && var box := s.boxes[b];
    && box.confirmedAt.None?
    && box.status == BoxInStock
    && box.product.Some? && box.product.value in s.products
    && PackingFactory(op, requested, box.factory, authorised).Some?
    && !BoxConflict(s, b)
    && var size := EffectiveSize(0, box.boxSize, s.products[box.product.value].boxSize);
    size != 0 && |Children(s.items, b)| == size
  }

  function DoConfirm(s: State, b: Id, op: Operator, requested: Option<Id>, authorised: bool, now: nat): State
    requires CanConfirm(s, b, op, requested, authorised)
  {
    var box := s.boxes[b];
    var factory := PackingFactory(op, requested, box.factory, authorised);
    s.(boxes := s.boxes[b := box.(itemCount := |Children(s.items, b)|, factory := factory,
    confirmedAt := Some(now), confirmedBy := Some(op.user))],
    items := map i | i in s.items ::
      if s.items[i].box == Some(b) then s.items[i].(factory := factory) else s.items[i],
    packedBoxes := s.packedBoxes + {b})
  }

  function NoboxBatch(requested: string, productBatch: string, itemBatch: string): string {
    if requested != "" then requested else if productBatch != "" then productBatch else itemBatch
  }

  predicate CanScanNobox(s: State, i: Id, p: Id, op: Operator, requested: Option<Id>, batch: string, authorised: bool) {
    && p in s.products && i in s.items
    && var product, item := s.products[p], s.items[i];
    var factory := PackingFactory(op, requested, None, authorised);
    && factory.Some?
    && !Differ(item.factory, factory)
    && !HasShipment(s, i)
    && item.status != Invalid && item.status != Scanned
    && !Differ(EffectiveBrand(s, item.brand, item.product), product.brand)
    && item.box.None?
    && !Differ(item.product, Some(p))
    && var effective := NoboxBatch(batch, product.batch, item.batch);
    (item.batch != "" ==> item.batch == effective) && effective != ""
  }

  function DoScanNobox(s: State, i: Id, p: Id, op: Operator, requested: Option<Id>, batch: string, authorised: bool, now: nat): State
    requires CanScanNobox(s, i, p, op, requested, batch, authorised)
  {
    var product, item := s.products[p], s.items[i];
    s.(items := s.items[i := item.(product := Some(p), brand := Coalesce(product.brand, item.brand),
    batch := NoboxBatch(batch, product.batch, item.batch), status := Scanned, boxedAt := Some(now),
    factory := PackingFactory(op, requested, None, authorised))],
    packedItems := s.packedItems + {i})
  }

  /******* Shipping *******/

  predicate CanShipBox(s: State, b: Id, distributorBrand: Option<Id>) {
    && b in s.boxes
    && var box := s.boxes[b];
    var brand := EffectiveBrand(s, box.brand, box.product);
    var children := Children(s.items, b);
    && brand.Some? && distributorBrand == brand
    && box.status == BoxInStock
    && box.product.Some? && children != {} && box.confirmedAt.Some?
    && box.distributor.None? && box.shippedAt.None? && !HasBoxShipment(s.shipments, b)
    && (forall i :: i in children ==> s.items[i].status != Invalid && !HasShipment(s, i))
    && (box.boxSize > 0 ==> |children| >= box.boxSize)
  }

  function DoShipBox(s: State, b: Id, distributor: Id, now: nat): State
    requires b in s.boxes
  {
    s.(boxes := s.boxes[b := s.boxes[b].(status := BoxShipped, distributor := Some(distributor), shippedAt := Some(now))],
    items := map i | i in s.items ::
      if s.items[i].box == Some(b) then ShippedItem(s.items[i], distributor, now) else s.items[i],
    shipments := s.shipments[s.nextShipment := Shipment(Some(b), None, distributor)],
    nextShipment := s.nextShipment + 1)
  }

  predicate CanShipItem(s: State, i: Id, distributorBrand: Option<Id>) {
    && i in s.items
    && var item := s.items[i];
    var brand := EffectiveBrand(s, item.brand, item.product);
    && brand.Some? && distributorBrand == brand
    && (item.box.Some? && item.box.value in s.boxes ==>
          var box := s.boxes[item.box.value];
          && box.status != BoxInvalid
          && !Differ(EffectiveBrand(s, box.brand, box.product), brand))
    && !HasShipment(s, i)
    && item.status != Invalid
    && item.product.Some?
    && (item.box.None? ==> item.boxedAt.Some?)
    && (item.box.Some? ==> item.box.value in s.boxes && s.boxes[item.box.value].confirmedAt.Some?)
  }

  function DoShipItem(s: State, i: Id, distributor: Id, now: nat): State
    requires i in s.items
  {
    s.(items := s.items[i := ShippedItem(s.items[i], distributor, now)],
    shipments := s.shipments[s.nextShipment := Shipment(s.items[i].box, Some(i), distributor)],
    nextShipment := s.nextShipment + 1)
  }

  predicate CanCancelShipBox(s: State, b: Id) {
    && b in s.boxes
    && s.boxes[b].status != BoxInvalid
    && (s.boxes[b].status == BoxShipped || s.boxes[b].distributor.Some? || HasBoxShipment(s.shipments, b))
  }

  function DoCancelShipBox(s: State, b: Id): State
    requires b in s.boxes
  {
    s.(boxes := s.boxes[b := s.boxes[b].(status := BoxInStock, distributor := None, shippedAt := None)],
    items := map i | i in s.items :: if s.items[i].box == Some(b) then UnshippedItem(s.items[i]) else s.items[i],
    shipments := map r | r in s.shipments && s.shipments[r].box != Some(b) :: s.shipments[r])
  }

  predicate CanCancelShipItem(s: State, i: Id) {
    && i in s.items
    && s.items[i].status != Invalid
    && HasShipment(s, i)
    && (s.items[i].box.Some? ==> !HasWholeBoxRow(s.shipments, s.items[i].box.value))
  }

  function DoCancelShipItem(s: State, i: Id): State
    requires i in s.items
  {
    var item := s.items[i];
    s.(items := s.items[i := item.(status := if item.box.Some? || item.boxedAt.Some? then Scanned else InStock,
    distributor := None, shippedAt := None)],
    shipments := map r | r in s.shipments && s.shipments[r].item != Some(i) :: s.shipments[r])
  }

  /******* Undoing a receipt *******/

  // Take one item out of its receipt; a parent box is recounted, loses its
  // confirmation and is cleared when it becomes empty.
  function WithoutReceipt(s: State, i: Id): State
    requires i in s.items
  {
    var item := s.items[i];
    var items := s.items[i := ClearedItem(s.products, item)];
    var t := s.(items := items, packedItems := s.packedItems + {i});
    if item.box.Some? && item.box.value in s.boxes then
      var b := item.box.value;
      var count := |Children(items, b)|;
      var box := s.boxes[b].(itemCount := count, confirmedAt := None, confirmedBy := None);
      t.(boxes := s.boxes[b := if count == 0 then ClearedBox(s.products, box) else box],
      packedBoxes := s.packedBoxes + {b})
    else t
  }

  predicate CanUnbind(s: State, i: Id) {
    i in s.items && s.items[i].box.Some? && !HasShipment(s, i) && s.items[i].status != Invalid
  }

  predicate CanCancelStockBox(s: State, b: Id, mode: StockMode) {
    && b in s.boxes && mode != NoBox
    && var box, children := s.boxes[b], Children(s.items, b);
    && box.status == BoxInStock
    && box.distributor.None? && box.shippedAt.None? && !HasBoxShipment(s.shipments, b)
    && (forall i :: i in children ==> !HasShipment(s, i) && s.items[i].status != Invalid)
    && (box.product.Some? || children != {})
  }

  function DoCancelStockBox(s: State, b: Id): State
    requires b in s.boxes
  {
    var children := Children(s.items, b);
    s.(items := map i | i in s.items :: if s.items[i].box == Some(b) then ClearedItem(s.products, s.items[i]) else s.items[i],
    boxes := s.boxes[b := ClearedBox(s.products, s.boxes[b])],
    packedItems := s.packedItems + children,
    packedBoxes := if children == {} then s.packedBoxes else s.packedBoxes + {b})
  }

  predicate NoboxReceipt(item: Item) {
    item.box.None? && item.status == Scanned && item.boxedAt.Some? && item.product.Some?
  }

  predicate CanCancelStockItem(s: State, i: Id, mode: StockMode) {
    && i in s.items
    && var item := s.items[i];
    && item.status != Invalid
    && !HasShipment(s, i)
    && (mode == NoBox ==> NoboxReceipt(item))
    && (mode == Boxed ==> !NoboxReceipt(item))
    && (item.box.Some? || NoboxReceipt(item))
  }

  /******* One request *******/

  function If(guard: bool, s: State, t: State): Outcome {
    if guard then Outcome(t, Done) else Outcome(s, Refused)
  }

  // Products, generated codes and their end of life.
  function HandleCode(s: State, c: Command): Outcome {
    match c
    case CreateProduct(brand, batch, size) =>
      Outcome(s.(products := s.products[s.nextProduct := Product(Some(brand), batch, size)], nextProduct := s.nextProduct + 1), Done)
    case EditProduct(p, batch, size) =>
      if p in s.products then Outcome(s.(products := s.products[p := s.products[p].(batch := batch, boxSize := size)]), Done)
      else Outcome(s, Refused)
    case DeleteProduct(p) => If(CanDeleteProduct(s, p), s, s.(products := s.products - {p}))
    case GenerateBox(p, brand, batch) =>
      If(CanGenerate(s, p, batch), s,
         s.(boxes := s.boxes[s.nextBox := NewBox(s, p, brand, batch)], nextBox := s.nextBox + 1))
    case GenerateItem(p, brand, batch) =>
      If(CanGenerate(s, p, batch), s,
         s.(items := s.items[s.nextItem := NewItem(s, p, brand, batch)], nextItem := s.nextItem + 1))
    // A later code of a generation that has started: other requests have run
    // since its product was checked, and only the trigger checks it again.
    case InsertBox(p, brand, batch) =>
      var row := FreshBox(p, Some(brand), batch);
      if BoxTriggerPasses(s.products, s.items, s.nextBox, row) then
        Outcome(s.(boxes := s.boxes[s.nextBox := row], nextBox := s.nextBox + 1), Done)
      else Outcome(s, Conflict)
    case InsertItem(p, brand, batch) =>
      var row := FreshItem(p, Some(brand), batch);
      if ItemTriggerPasses(s.products, s.boxes, row) then
        Outcome(s.(items := s.items[s.nextItem := row], nextItem := s.nextItem + 1), Done)
      else Outcome(s, Conflict)
    case InvalidateBox(b) =>
      if b in s.boxes && s.boxes[b].status != BoxInvalid then
        Outcome(s.(boxes := s.boxes[b := s.boxes[b].(status := BoxInvalid)]), Done)
      else Outcome(s, Refused)
    case InvalidateItem(i) =>
      if i in s.items && s.items[i].status != Invalid then
        Outcome(s.(items := s.items[i := s.items[i].(status := Invalid)]), Done)
      else Outcome(s, Refused)
    case DeleteBox(b) => If(CanDeleteBox(s, b), s, s.(boxes := s.boxes - {b}))
    case DeleteItem(i) => If(CanDeleteItem(s, i), s, s.(items := s.items - {i}))
    case VerifyScan(i, now) =>
      if i in s.items then Outcome(s.(items := s.items[i := s.items[i].(scannedAt := Some(now))]), Done)
      else Outcome(s, Refused)
    case _ => Outcome(s, Refused)
  }

  // Taking goods in.
  function HandleReceipt(s: State, c: Command): Outcome {
    match c
    case SetProduct(b, p, op, requested, size, batch, authorised) =>
      if !CanSetProduct(s, b, p, op, requested, size, batch, authorised) then Outcome(s, Refused)
      else
        var row := BoxWithProduct(s, b, p, op, requested, size, batch, authorised);
        if BoxTriggerPasses(s.products, s.items, b, row) then Outcome(s.(boxes := s.boxes[b := row]), Done)
        else Outcome(s, Conflict)
    case Bind(b, codes, op, requested, authorised, now) =>
      if CanBind(s, b, codes, op, requested, authorised) then
        Outcome(DoBind(s, b, codes, BindFactory(op, requested, s.boxes[b].factory, authorised).value, now), Done)
      else Outcome(s, Refused)
    case Scan(b, i, op, requested, size, authorised, now) =>
      if !ScanReaches(s, b, i, op, requested, size, authorised) then Outcome(s, Refused)
      else if s.items[i].box == Some(b) then
        Outcome(s.(packedBoxes := s.packedBoxes + {b}, packedItems := s.packedItems + {i}), Repeated)
      else if CanScan(s, b, i, op, requested, size, authorised) then
        Outcome(DoScan(s, b, i, op, requested, size, authorised, now), Done)
      else Outcome(s, Refused)
    case Confirm(b, op, requested, authorised, now) =>
      if CanConfirm(s, b, op, requested, authorised) then Outcome(DoConfirm(s, b, op, requested, authorised, now), Done)
      else Outcome(s, Refused)
    case ScanNobox(i, p, op, requested, batch, authorised, now) =>
      if CanScanNobox(s, i, p, op, requested, batch, authorised) then
        Outcome(DoScanNobox(s, i, p, op, requested, batch, authorised, now), Done)
      else Outcome(s, Refused)
    case _ => Outcome(s, Refused)
  }

  // Undoing a receipt.
  function HandleReturn(s: State, c: Command): Outcome {
    match c
    case Unbind(i) =>
      if CanUnbind(s, i) then Outcome(WithoutReceipt(s, i), Done) else Outcome(s, Refused)
    case CancelStockBox(b, mode) =>
      if CanCancelStockBox(s, b, mode) then Outcome(DoCancelStockBox(s, b), Done) else Outcome(s, Refused)
    case CancelStockItem(i, mode) =>
      if CanCancelStockItem(s, i, mode) then Outcome(WithoutReceipt(s, i), Done) else Outcome(s, Refused)
    case _ => Outcome(s, Refused)
  }

  // Shipments and their cancellation.
  function HandleShipment(s: State, c: Command): Outcome {
    match c
    case ShipBox(b, distributor, brand, now) =>
      if CanShipBox(s, b, brand) then Outcome(DoShipBox(s, b, distributor, now), Done) else Outcome(s, Refused)
    case ShipItem(i, distributor, brand, now) =>
      if CanShipItem(s, i, brand) then Outcome(DoShipItem(s, i, distributor, now), Done) else Outcome(s, Refused)
    case CancelShipBox(b) =>
      if CanCancelShipBox(s, b) then Outcome(DoCancelShipBox(s, b), Done) else Outcome(s, Refused)
    case CancelShipItem(i) =>
      if CanCancelShipItem(s, i) then Outcome(DoCancelShipItem(s, i), Done) else Outcome(s, Refused)
    case _ => Outcome(s, Refused)
  }

  predicate IsReceipt(c: Command) {
    c.SetProduct? || c.Bind? || c.Scan? || c.Confirm? || c.ScanNobox?
  }

  predicate IsReturn(c: Command) {
    c.Unbind? || c.CancelStockBox? || c.CancelStockItem?
  }

  predicate IsShipment(c: Command) {
    c.ShipBox? || c.ShipItem? || c.CancelShipBox? || c.CancelShipItem?
  }

  function Handle(s: State, c: Command): Outcome {
    if IsReceipt(c) then HandleReceipt(s, c)
    else if IsReturn(c) then HandleReturn(s, c)
    else if IsShipment(c) then HandleShipment(s, c)
    else HandleCode(s, c)
  }
}
