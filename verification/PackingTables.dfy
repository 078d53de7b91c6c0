// The rows the packing, receipt and shipping handlers read and write, and the
// conditions under which the receipt triggers abort a statement.
//
// A row is keyed by its AUTOINCREMENT id.  Its printed code is just a second
// unique name of the same row and is not modelled separately.
module PackingTables {
  import opened Wrappers

  type Id = nat

  datatype BoxStatus = BoxInStock | BoxShipped | BoxInvalid

  datatype ItemStatus = InStock | Scanned | Shipped | Invalid

  datatype Product = Product(brand: Option<Id>, batch: string, boxSize: int)

  datatype Box = Box(
    product: Option<Id>, brand: Option<Id>, batch: string,
    itemCount: nat, boxSize: nat, status: BoxStatus,
    distributor: Option<Id>, shippedAt: Option<nat>,
    factory: Option<Id>, confirmedAt: Option<nat>, confirmedBy: Option<Id>)

  datatype Item = Item(
    box: Option<Id>, product: Option<Id>, brand: Option<Id>, batch: string,
    status: ItemStatus, distributor: Option<Id>, shippedAt: Option<nat>,
    boxedAt: Option<nat>, factory: Option<Id>, scannedAt: Option<nat>)

  // A shipment of a whole box has no item; a loose item keeps the id of the
  // box it sits in, if any.
  datatype Shipment = Shipment(box: Option<Id>, item: Option<Id>, distributor: Id)

  // `packedBoxes` and `packedItems` are the codes that occur in pack_records.
  datatype State = State(
    products: map<Id, Product>, boxes: map<Id, Box>, items: map<Id, Item>,
    shipments: map<Id, Shipment>, packedBoxes: set<Id>, packedItems: set<Id>,
    nextProduct: Id, nextBox: Id, nextItem: Id, nextShipment: Id)

  const EMPTY_DATABASE := State(map[], map[], map[], map[], {}, {}, 0, 0, 0, 0)

  function Children(items: map<Id, Item>, b: Id): set<Id> {
    set i | i in items && items[i].box == Some(b)
  }

  /******* Receipt triggers *******/

  predicate ProductMatches(products: map<Id, Product>, product: Option<Id>, brand: Option<Id>) {
    product.Some? ==> product.value in products && products[product.value].brand == brand
  }

  predicate Agree(box: Box, item: Item) {
    box.product == item.product && box.brand == item.brand && box.batch == item.batch
  }

  // receipt_items_insert and receipt_items_update let the row through.
  predicate ItemTriggerPasses(products: map<Id, Product>, boxes: map<Id, Box>, row: Item) {
    && ProductMatches(products, row.product, row.brand)
    && (row.box.Some? ==> row.box.value in boxes && Agree(boxes[row.box.value], row))
  }

  // receipt_boxes_insert and receipt_boxes_update let the row through.
  predicate BoxTriggerPasses(products: map<Id, Product>, items: map<Id, Item>, b: Id, row: Box) {
    && ProductMatches(products, row.product, row.brand)
    && forall i :: i in items && items[i].box == Some(b) ==> Agree(row, items[i])
  }

  // receipt_item_ship_guard lets a row whose new status is shipped through.
  predicate ShipTriggerPasses(products: map<Id, Product>, boxes: map<Id, Box>, row: Item) {
    && row.product.Some?
    && ItemTriggerPasses(products, boxes, row)
  }

  // The query behind boxConflict.
  predicate BoxConflict(s: State, b: Id)
    requires b in s.boxes
  {
    exists i :: i in s.items && s.items[i].box == Some(b) && !Agree(s.boxes[b], s.items[i])
  }

  /******* Shipment records *******/

  predicate OwnRow(shipments: map<Id, Shipment>, r: Id, i: Id) {
    r in shipments && shipments[r].item == Some(i)
  }

  predicate WholeBoxRow(shipments: map<Id, Shipment>, r: Id, b: Id) {
    r in shipments && shipments[r].item.None? && shipments[r].box == Some(b)
  }

  predicate HasOwnRow(shipments: map<Id, Shipment>, i: Id) {
    exists r :: r in shipments && OwnRow(shipments, r, i)
  }

  predicate HasWholeBoxRow(shipments: map<Id, Shipment>, b: Id) {
    exists r :: r in shipments && WholeBoxRow(shipments, r, b)
  }

  predicate HasBoxShipment(shipments: map<Id, Shipment>, b: Id) {
    exists r :: r in shipments && shipments[r].box == Some(b)
  }

  predicate BoxGone(boxes: map<Id, Box>, b: Option<Id>) {
    b.Some? && b.value in boxes &&
    var box := boxes[b.value];
    box.status == BoxShipped || box.distributor.Some? || box.shippedAt.Some?
  }

  // itemHasShipment: the row itself, its own shipment record or its box.
  predicate HasShipment(s: State, i: Id)
    requires i in s.items
  {
    var item := s.items[i];
    || item.status == Shipped || item.distributor.Some? || item.shippedAt.Some?
    || HasOwnRow(s.shipments, i)
    || BoxGone(s.boxes, item.box)
  }
}
