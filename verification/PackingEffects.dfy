// What a successful request does to each column of each row, in reachable
// states: which requests change it, to what, and that nothing else does.
module PackingEffects {
  import opened Wrappers
  import opened PackingTables
  import opened PackingHandlers
  import opened PackingInvariant
  import opened PackingAnswers

  /******* What happens to an item *******/

  // The box a request puts the item into.
  function EnteredBox(s: State, c: Command, i: Id): Option<Id>
    requires i in s.items
  {
    if c.Bind? && i in c.codes && s.items[i].box.None? then Some(c.box)
    else if c.Scan? && c.item == i then Some(c.box)
    else None
  }

  predicate ReceivedLoose(c: Command, i: Id) {
    c.ScanNobox? && c.item == i
  }

  predicate ReceiptUndone(s: State, c: Command, i: Id)
    requires i in s.items
  {
    || (c.Unbind? && c.item == i)
    || (c.CancelStockItem? && c.item == i)
    || (c.CancelStockBox? && s.items[i].box == Some(c.box))
  }

  // The distributor a request ships the item to.
  function ShippedTo(s: State, c: Command, i: Id): Option<Id>
    requires i in s.items
  {
    if c.ShipBox? && s.items[i].box == Some(c.box) then Some(c.distributor)
    else if c.ShipItem? && c.item == i then Some(c.distributor)
    else None
  }

  predicate ShipmentUndone(s: State, c: Command, i: Id)
    requires i in s.items
  {
    (c.CancelShipBox? && s.items[i].box == Some(c.box)) || (c.CancelShipItem? && c.item == i)
  }

  function TimeOf(c: Command): nat {
    match c
    case Bind(_, _, _, _, _, now) => now
    case Scan(_, _, _, _, _, _, now) => now
    case Confirm(_, _, _, _, now) => now
    case ScanNobox(_, _, _, _, _, _, now) => now
    case ShipBox(_, _, _, now) => now
    case ShipItem(_, _, _, now) => now
    case VerifyScan(_, now) => now
    case _ => 0
  }

  function FirstBatch(a: string, b: string, c: string): string {
    if a != "" then a else if b != "" then b else c
  }

  predicate PlaceLaw(s: State, c: Command, i: Id, new': Item)
    requires i in s.items
  {
    var old', entered := s.items[i], EnteredBox(s, c, i);
    && new'.brand == old'.brand
    && (entered.Some? ==>
          && entered.value in s.boxes && new'.box == entered
          && new'.product == s.boxes[entered.value].product && new'.batch == s.boxes[entered.value].batch)
    && (ReceivedLoose(c, i) ==>
          && new'.box == None && new'.product == Some(c.product)
          && c.product in s.products && new'.batch == FirstBatch(c.batch, s.products[c.product].batch, old'.batch))
    && (ReceiptUndone(s, c, i) ==> new'.box == None && new'.product == None && new'.batch == "" && new'.factory == None)
    && (entered.None? && !ReceivedLoose(c, i) && !ReceiptUndone(s, c, i) ==>
          new'.box == old'.box && new'.product == old'.product && new'.batch == old'.batch && new'.factory == old'.factory)
  }

  predicate StatusLaw(s: State, c: Command, i: Id, new': Item)
    requires i in s.items
  {
    var old' := s.items[i];
    var received := EnteredBox(s, c, i).Some? || ReceivedLoose(c, i);
    && new'.status == (
         if received then Scanned
         else if ReceiptUndone(s, c, i) then InStock
         else if ShippedTo(s, c, i).Some? then Shipped
         else if ShipmentUndone(s, c, i) && old'.status != Invalid then Scanned
         else if c == InvalidateItem(i) then Invalid
         else old'.status)
    && new'.boxedAt == (
         if received then Some(TimeOf(c)) else if ReceiptUndone(s, c, i) then None else old'.boxedAt)
    && new'.scannedAt == (if c.VerifyScan? && c.item == i then Some(TimeOf(c)) else old'.scannedAt)
  }

  // Who has the item.
  predicate DistributorLaw(s: State, c: Command, i: Id, new': Item)
    requires i in s.items
  {
    var old', to := s.items[i], ShippedTo(s, c, i);
    if to.Some? then new'.distributor == to && new'.shippedAt == Some(TimeOf(c))
    else if ShipmentUndone(s, c, i) then new'.distributor == None && new'.shippedAt == None
    else new'.distributor == old'.distributor && new'.shippedAt == old'.shippedAt
  }

  // A factory that received goods is the one named for it.
  ghost predicate FactoryLaw(s: State, c: Command, i: Id, new': Item)
    requires i in s.items
  {
    match c
    case Bind(b, codes, op, requested, authorised, _) =>
      EnteredBox(s, c, i).Some? ==>
        b in s.boxes && exists f :: new'.factory == Some(f) && BindReceives(op, requested, s.boxes[b].factory, authorised, f)
    case Scan(b, _, op, requested, _, authorised, _) =>
      EnteredBox(s, c, i).Some? ==>
        b in s.boxes && exists f :: new'.factory == Some(f) && Receives(op, requested, s.boxes[b].factory, authorised, f)
    case ScanNobox(_, _, op, requested, _, authorised, _) =>
      ReceivedLoose(c, i) ==> exists f :: new'.factory == Some(f) && Receives(op, requested, None, authorised, f)
    case _ => true
  }

  ghost predicate ItemLaw(s: State, c: Command, i: Id, new': Item)
    requires i in s.items
  {
    PlaceLaw(s, c, i, new') && StatusLaw(s, c, i, new') && DistributorLaw(s, c, i, new') && FactoryLaw(s, c, i, new')
  }

  // The items that are there afterwards.
  predicate ItemKeysLaw(s: State, c: Command, items: map<Id, Item>) {
    items.Keys ==
      if c.GenerateItem? || c.InsertItem? then s.items.Keys + {s.nextItem}
      else if c.DeleteItem? then s.items.Keys - {c.item}
      else s.items.Keys
  }

  /******* What happens to a box *******/

  // The item leaves its box with this request.
  predicate TakesFrom(s: State, c: Command, b: Id) {
    (c.Unbind? || c.CancelStockItem?) && c.item in s.items && s.items[c.item].box == Some(b)
  }

  predicate Emptied(s: State, c: Command, b: Id) {
    (c.CancelStockBox? && c.box == b) || (TakesFrom(s, c, b) && Children(s.items, b) == {c.item})
  }

  predicate BoxContentLaw(s: State, c: Command, b: Id, new': Box)
    requires b in s.boxes
  {
    var old' := s.boxes[b];
    && new'.brand == old'.brand
    && (c.SetProduct? && c.box == b ==>
          && new'.product == Some(c.product) && new'.batch == (if c.batch != "" then c.batch else old'.batch)
          && c.product in s.products && new'.boxSize == SizeOr(c.boxSize, s.products[c.product].boxSize))
    && (c.Scan? && c.box == b ==> new'.boxSize == ScanSize(s, b, c.boxSize))
    && (Emptied(s, c, b) ==> new'.product == None && new'.batch == "" && new'.boxSize == 0 && new'.factory == None)
    && (!(c.SetProduct? && c.box == b) && !Emptied(s, c, b) ==>
          && new'.product == old'.product && new'.batch == old'.batch
          && (!(c.Scan? && c.box == b) ==> new'.boxSize == old'.boxSize))
  }

  predicate BoxStatusLaw(s: State, c: Command, b: Id, new': Box)
    requires b in s.boxes
  {
    var old' := s.boxes[b];
    && new'.status == (
         if c.ShipBox? && c.box == b then BoxShipped
         else if (c.CancelShipBox? && c.box == b) || Emptied(s, c, b) then BoxInStock
         else if c == InvalidateBox(b) then BoxInvalid
         else old'.status)
    && new'.distributor == (
         if c.ShipBox? && c.box == b then Some(c.distributor)
         else if c.CancelShipBox? && c.box == b then None else old'.distributor)
    && new'.shippedAt == (
         if c.ShipBox? && c.box == b then Some(TimeOf(c))
         else if c.CancelShipBox? && c.box == b then None else old'.shippedAt)
    && new'.confirmedAt == (
         if c.Confirm? && c.box == b then Some(TimeOf(c))
         else if TakesFrom(s, c, b) || Emptied(s, c, b) then None else old'.confirmedAt)
    && new'.confirmedBy == (
         if c.Confirm? && c.box == b then Some(c.op.user)
         else if TakesFrom(s, c, b) || Emptied(s, c, b) then None else old'.confirmedBy)
  }

  ghost predicate BoxFactoryLaw(s: State, c: Command, b: Id, new': Box)
    requires b in s.boxes
  {
    var old' := s.boxes[b];
    match c
    case SetProduct(box, _, op, requested, _, _, authorised) =>
      if box == b then exists f :: new'.factory == Some(f) && Receives(op, requested, old'.factory, authorised, f)
      else new'.factory == old'.factory
    case Scan(box, _, op, requested, _, authorised, _) =>
      if box == b then exists f :: new'.factory == Some(f) && Receives(op, requested, old'.factory, authorised, f)
      else new'.factory == old'.factory
    case Confirm(box, op, requested, authorised, _) =>
      if box == b then exists f :: new'.factory == Some(f) && Receives(op, requested, old'.factory, authorised, f)
      else new'.factory == old'.factory
    case Bind(box, _, op, requested, authorised, _) =>
      if box == b then exists f :: new'.factory == Some(f) && BindReceives(op, requested, old'.factory, authorised, f)
      else new'.factory == old'.factory
    case _ => !Emptied(s, c, b) ==> new'.factory == old'.factory
  }

  ghost predicate BoxLaw(s: State, c: Command, b: Id, new': Box)
    requires b in s.boxes
  {
    BoxContentLaw(s, c, b, new') && BoxStatusLaw(s, c, b, new') && BoxFactoryLaw(s, c, b, new')
  }

  predicate BoxKeysLaw(s: State, c: Command, boxes: map<Id, Box>) {
    boxes.Keys ==
      if c.GenerateBox? || c.InsertBox? then s.boxes.Keys + {s.nextBox}
      else if c.DeleteBox? then s.boxes.Keys - {c.box}
      else s.boxes.Keys
  }

  /******* Shipments, records, products and new codes *******/

  predicate SameRows(before: map<Id, Shipment>, after: map<Id, Shipment>) {
    forall r :: r in after ==> r in before && after[r] == before[r]
  }

  predicate ShipmentsLaw(s: State, c: Command, shipments: map<Id, Shipment>) {
    match c
    case ShipBox(b, d, _, _) => shipments == s.shipments[s.nextShipment := Shipment(Some(b), None, d)]
    case ShipItem(i, d, _, _) => i in s.items && shipments == s.shipments[s.nextShipment := Shipment(s.items[i].box, Some(i), d)]
    case CancelShipBox(b) =>
      shipments.Keys == (set r | r in s.shipments && s.shipments[r].box != Some(b)) && SameRows(s.shipments, shipments)
    case CancelShipItem(i) =>
      shipments.Keys == (set r | r in s.shipments && s.shipments[r].item != Some(i)) && SameRows(s.shipments, shipments)
    case _ => shipments == s.shipments
  }

  // Only receipts and their undoing leave packing records.
  ghost predicate RecordsLaw(s: State, c: Command, t: State) {
    && (forall i: Id :: i in t.packedItems <==>
          || i in s.packedItems
          || (i in s.items && (EnteredBox(s, c, i).Some? || ReceivedLoose(c, i) || ReceiptUndone(s, c, i))))
    && (forall b: Id :: b in t.packedBoxes <==>
          || b in s.packedBoxes
          || (c.Confirm? && c.box == b)
          || TakesFrom(s, c, b)
          || (exists i :: i in s.items && (EnteredBox(s, c, i) == Some(b) || (c.CancelStockBox? && c.box == b && s.items[i].box == Some(b)))))
  }

  predicate ProductsLaw(s: State, c: Command, products: map<Id, Product>) {
    match c
    case CreateProduct(brand, batch, size) => products == s.products[s.nextProduct := Product(Some(brand), batch, size)]
    case EditProduct(p, batch, size) => p in s.products && products == s.products[p := Product(s.products[p].brand, batch, size)]
    case DeleteProduct(p) => products == s.products - {p}
    case _ => products == s.products
  }

  // A new code is blank but for its brand and what was ordered.
  predicate NewCodeLaw(s: State, c: Command, t: State) {
    match c
    case GenerateBox(p, brand, batch) => s.nextBox in t.boxes && IsNewBox(s, p, brand, batch, t.boxes[s.nextBox])
    case InsertBox(p, brand, batch) => s.nextBox in t.boxes && IsNewBox(s, p, brand, batch, t.boxes[s.nextBox])
    case GenerateItem(p, brand, batch) => s.nextItem in t.items && IsNewItem(s, p, brand, batch, t.items[s.nextItem])
    case InsertItem(p, brand, batch) => s.nextItem in t.items && IsNewItem(s, p, brand, batch, t.items[s.nextItem])
    case _ => true
  }

  predicate IsNewBox(s: State, p: Option<Id>, brand: Id, batch: string, box: Box) {
    && box.product == p && box.batch == batch && box.itemCount == 0 && box.boxSize == 0 && box.status == BoxInStock
    && box.distributor == None && box.factory == None && box.confirmedAt == None
    && (p.None? ==> box.brand == Some(brand))
    && (p.Some? ==> p.value in s.products && box.brand == s.products[p.value].brand)
  }

  predicate IsNewItem(s: State, p: Option<Id>, brand: Id, batch: string, item: Item) {
    && item.product == p && item.batch == batch && item.box == None && item.status == InStock
    && item.distributor == None && item.boxedAt == None && item.factory == None && item.scannedAt == None
    && (p.None? ==> item.brand == Some(brand))
    && (p.Some? ==> p.value in s.products && item.brand == s.products[p.value].brand)
  }

  /******* The laws hold *******/

  // The two requests that leave every item as it is.
  lemma UntouchedItems(s: State, c: Command, i: Id)
    requires Inv(s) && (c.SetProduct? || c.Confirm?) && HandleReceipt(s, c).reply == Done && i in s.items
    ensures var t := HandleReceipt(s, c).state; i in t.items && t.items[i] == s.items[i]
  {
    ItemFacts(s, i);
    if c.Confirm? { BoxFacts(s, c.box); }
    hide Inv, BoxConflict, HasWholeBoxRow, HasShipment, Children, BoxTriggerPasses, CanSetProduct;
  }

  lemma UntouchedLaw(s: State, c: Command, i: Id)
    requires (c.SetProduct? || c.Confirm?) && i in s.items
    ensures ItemLaw(s, c, i, s.items[i])
  {
  }

  lemma ScanItems(s: State, c: Command, i: Id)
    requires Inv(s) && c.Scan? && HandleReceipt(s, c).reply == Done && i in s.items
    ensures var t := HandleReceipt(s, c).state; i in t.items && ItemLaw(s, c, i, t.items[i])
  {
    ItemFacts(s, i);
    BoxFacts(s, c.box);
    var factory := PackingFactory(c.op, c.requested, s.boxes[c.box].factory, c.authorised);
    FactoryChoice(c.op, c.requested, s.boxes[c.box].factory, c.authorised, factory.value);
    hide Inv, BoxConflict, HasWholeBoxRow, HasShipment, Children, Receives, PackingFactory, EffectiveSize;
  }

  lemma ScanNoboxItems(s: State, c: Command, i: Id)
    requires Inv(s) && c.ScanNobox? && HandleReceipt(s, c).reply == Done && i in s.items
    ensures var t := HandleReceipt(s, c).state; i in t.items && ItemLaw(s, c, i, t.items[i])
  {
    ItemFacts(s, i);
    assert s.products[c.product].brand.Some? by { assert KeysOk(s); }
    FactoryChoice(c.op, c.requested, None, c.authorised, PackingFactory(c.op, c.requested, None, c.authorised).value);
    hide Inv, HasShipment, Receives, PackingFactory;
  }

  // Binding rewrites the requested items that were loose.
  lemma BindRewrites(s: State, c: Command, i: Id)
    requires Inv(s) && c.Bind? && HandleReceipt(s, c).reply == Done && i in s.items
    ensures c.box in s.boxes && BindFactory(c.op, c.requested, s.boxes[c.box].factory, c.authorised).Some?
    ensures var t, f := HandleReceipt(s, c).state, BindFactory(c.op, c.requested, s.boxes[c.box].factory, c.authorised).value;
      var box, item := s.boxes[c.box], s.items[i];
      i in t.items &&
      if i in c.codes && item.box.None? then
        t.items[i] == item.(box := Some(c.box), product := box.product, batch := box.batch, status := Scanned,
                            boxedAt := Some(c.now), factory := Some(f))
      else t.items[i] == item
  {
    ItemFacts(s, i);
    hide Inv, BoxConflict, HasShipment, Children, BindFactory, BindableItem;
  }

  lemma BindItems(s: State, c: Command, i: Id)
    requires Inv(s) && c.Bind? && HandleReceipt(s, c).reply == Done && i in s.items
    ensures var t := HandleReceipt(s, c).state; i in t.items && ItemLaw(s, c, i, t.items[i])
  {
    BindRewrites(s, c, i);
    FactoryChoice(c.op, c.requested, s.boxes[c.box].factory, c.authorised,
                  BindFactory(c.op, c.requested, s.boxes[c.box].factory, c.authorised).value);
    hide Inv, HandleReceipt, BindReceives, BindFactory;
  }

  lemma ReceiptItems(s: State, c: Command, i: Id)
    requires Inv(s) && IsReceipt(c) && HandleReceipt(s, c).reply == Done && i in s.items
    ensures var t := HandleReceipt(s, c).state; i in t.items && ItemLaw(s, c, i, t.items[i])
  {
    hide Inv, HandleReceipt, ItemLaw;
    if c.Bind? {
      BindItems(s, c, i);
    } else if c.Scan? {
      ScanItems(s, c, i);
    } else if c.ScanNobox? {
      ScanNoboxItems(s, c, i);
    } else {
      UntouchedItems(s, c, i);
      UntouchedLaw(s, c, i);
    }
  }

  // An item whose receipt is undone is blank again but for its brand.
  lemma ReturnRewrites(s: State, c: Command, i: Id)
    requires Inv(s) && IsReturn(c) && HandleReturn(s, c).reply == Done && i in s.items
    ensures var t, item := HandleReturn(s, c).state, s.items[i];
      i in t.items &&
      if ReceiptUndone(s, c, i) then
        item.distributor == None && item.shippedAt == None &&
        t.items[i] == Item(None, None, item.brand, "", InStock, None, None, None, None, item.scannedAt)
      else t.items[i] == item
  {
    ItemFacts(s, i);
    assert ItemRowOk(s, i);
    if c.CancelStockBox? { assert i in Children(s.items, c.box) <==> s.items[i].box == Some(c.box); }
    hide Inv, HasShipment, HasBoxShipment, ClearedBox;
  }

  lemma ReturnItems(s: State, c: Command, i: Id)
    requires Inv(s) && IsReturn(c) && HandleReturn(s, c).reply == Done && i in s.items
    ensures var t := HandleReturn(s, c).state; i in t.items && ItemLaw(s, c, i, t.items[i])
  {
    hide Inv, HandleReturn;
    ReturnRewrites(s, c, i);
  }

  lemma ShipmentRewrites(s: State, c: Command, i: Id)
    requires Inv(s) && IsShipment(c) && HandleShipment(s, c).reply == Done && i in s.items
    ensures var t, item := HandleShipment(s, c).state, s.items[i];
      i in t.items &&
      if ShippedTo(s, c, i).Some? then t.items[i] == item.(status := Shipped, distributor := ShippedTo(s, c, i), shippedAt := Some(TimeOf(c)))
      else if ShipmentUndone(s, c, i) then
        t.items[i] == item.(status := if item.status == Invalid then Invalid else Scanned, distributor := None, shippedAt := None)
      else t.items[i] == item
  {
    ItemFacts(s, i);
    hide Inv, HasShipment, HasBoxShipment, CanShipBox, CanShipItem, CanCancelShipBox;
  }

  lemma ShipmentItems(s: State, c: Command, i: Id)
    requires Inv(s) && IsShipment(c) && HandleShipment(s, c).reply == Done && i in s.items
    ensures var t := HandleShipment(s, c).state; i in t.items && ItemLaw(s, c, i, t.items[i])
  {
    hide Inv, HandleShipment;
    ShipmentRewrites(s, c, i);
  }

  lemma CodeRewrites(s: State, c: Command, i: Id)
    requires Inv(s) && !IsReceipt(c) && !IsReturn(c) && !IsShipment(c) && HandleCode(s, c).reply == Done
    requires i in s.items && i in HandleCode(s, c).state.items
    ensures HandleCode(s, c).state.items[i] ==
      if c == InvalidateItem(i) then s.items[i].(status := Invalid)
      else if c.VerifyScan? && c.item == i then s.items[i].(scannedAt := Some(c.now))
      else s.items[i]
  {
    hide CanGenerate, CanDeleteProduct, CanDeleteBox, CanDeleteItem, BoxTriggerPasses, ItemTriggerPasses;
  }

  lemma CodeItems(s: State, c: Command, i: Id)
    requires Inv(s) && !IsReceipt(c) && !IsReturn(c) && !IsShipment(c) && HandleCode(s, c).reply == Done
    requires i in s.items && i in HandleCode(s, c).state.items
    ensures ItemLaw(s, c, i, HandleCode(s, c).state.items[i])
  {
    CodeRewrites(s, c, i);
    hide Inv, HandleCode;
  }

  // Every item row that stays.
  lemma ItemEffects(s: State, c: Command, i: Id)
    requires Inv(s) && Handle(s, c).reply == Done && i in s.items && i in Handle(s, c).state.items
    ensures ItemLaw(s, c, i, Handle(s, c).state.items[i])
  {
    hide Inv, HandleReceipt, HandleReturn, HandleShipment, HandleCode, ItemLaw;
    if IsReceipt(c) {
      ReceiptItems(s, c, i);
    } else if IsReturn(c) {
      ReturnItems(s, c, i);
    } else if IsShipment(c) {
      ShipmentItems(s, c, i);
    } else {
      CodeItems(s, c, i);
    }
  }

  lemma SetProductBoxes(s: State, c: Command, b: Id)
    requires Inv(s) && c.SetProduct? && HandleReceipt(s, c).reply == Done && b in s.boxes
    ensures var t := HandleReceipt(s, c).state; b in t.boxes && BoxLaw(s, c, b, t.boxes[b])
  {
    BoxFacts(s, b);
    FactoryChoice(c.op, c.requested, s.boxes[c.box].factory, c.authorised, PackingFactory(c.op, c.requested, s.boxes[c.box].factory, c.authorised).value);
    assert s.products[c.product].brand.Some? by { assert KeysOk(s); }
    hide Inv, BoxConflict, HasWholeBoxRow, Children, Receives, PackingFactory, BoxTriggerPasses;
  }

  lemma BindBoxRewrites(s: State, c: Command, b: Id)
    requires c.Bind? && HandleReceipt(s, c).reply == Done && b in s.boxes
    ensures c.box in s.boxes && BindFactory(c.op, c.requested, s.boxes[c.box].factory, c.authorised).Some?
    ensures var t, f := HandleReceipt(s, c).state, BindFactory(c.op, c.requested, s.boxes[c.box].factory, c.authorised);
      b in t.boxes &&
      t.boxes[b] == if c.box == b then s.boxes[b].(factory := f, itemCount := t.boxes[b].itemCount) else s.boxes[b]
  {
    hide BoxConflict, HasShipment, Children, BindFactory, BindableItem, BoundItems, NewChildren;
  }

  lemma BindBoxes(s: State, c: Command, b: Id)
    requires Inv(s) && c.Bind? && HandleReceipt(s, c).reply == Done && b in s.boxes
    ensures var t := HandleReceipt(s, c).state; b in t.boxes && BoxLaw(s, c, b, t.boxes[b])
  {
    BindBoxRewrites(s, c, b);
    FactoryChoice(c.op, c.requested, s.boxes[c.box].factory, c.authorised, BindFactory(c.op, c.requested, s.boxes[c.box].factory, c.authorised).value);
    hide Inv, HandleReceipt, Children, BindReceives, BindFactory;
  }

  lemma ScanBoxes(s: State, c: Command, b: Id)
    requires Inv(s) && c.Scan? && HandleReceipt(s, c).reply == Done && b in s.boxes
    ensures var t := HandleReceipt(s, c).state; b in t.boxes && BoxLaw(s, c, b, t.boxes[b])
  {
    FactoryChoice(c.op, c.requested, s.boxes[c.box].factory, c.authorised, PackingFactory(c.op, c.requested, s.boxes[c.box].factory, c.authorised).value);
    hide Inv, BoxConflict, HasShipment, Children, Receives, PackingFactory;
  }

  lemma ConfirmBoxes(s: State, c: Command, b: Id)
    requires Inv(s) && c.Confirm? && HandleReceipt(s, c).reply == Done && b in s.boxes
    ensures var t := HandleReceipt(s, c).state; b in t.boxes && BoxLaw(s, c, b, t.boxes[b])
  {
    FactoryChoice(c.op, c.requested, s.boxes[c.box].factory, c.authorised, PackingFactory(c.op, c.requested, s.boxes[c.box].factory, c.authorised).value);
    hide Inv, BoxConflict, Children, Receives, PackingFactory;
  }

  lemma ReceiptBoxes(s: State, c: Command, b: Id)
    requires Inv(s) && IsReceipt(c) && HandleReceipt(s, c).reply == Done && b in s.boxes
    ensures var t := HandleReceipt(s, c).state; b in t.boxes && BoxLaw(s, c, b, t.boxes[b])
  {
    hide Inv, CanScanNobox, DoBind, CanBind, CanScan, CanConfirm, CanSetProduct, DoScan, DoConfirm, BoxWithProduct, ScanReaches;
    hide BoxTriggerPasses, Children, Receives, BindReceives;
    if c.SetProduct? {
      hide HandleReceipt, BoxLaw;
      SetProductBoxes(s, c, b);
    } else if c.Bind? {
      hide HandleReceipt, BoxLaw;
      BindBoxes(s, c, b);
    } else if c.Scan? {
      hide HandleReceipt, BoxLaw;
      ScanBoxes(s, c, b);
    } else if c.Confirm? {
      hide HandleReceipt, BoxLaw;
      ConfirmBoxes(s, c, b);
    }
  }

  // A box loses its receipt with its last item, its confirmation with any.
  lemma ReturnBoxRewrites(s: State, c: Command, b: Id)
    requires Inv(s) && IsReturn(c) && HandleReturn(s, c).reply == Done && b in s.boxes
    ensures var t, box := HandleReturn(s, c).state, s.boxes[b];
      b in t.boxes &&
      if Emptied(s, c, b) then
        t.boxes[b] == Box(None, box.brand, "", 0, 0, BoxInStock, None, None, None, None, None) && box.distributor == None && box.shippedAt == None
      else if TakesFrom(s, c, b) then
        t.boxes[b] == box.(itemCount := t.boxes[b].itemCount, confirmedAt := None, confirmedBy := None)
      else t.boxes[b] == box
  {
    BoxFacts(s, b);
    if c.Unbind? || c.CancelStockItem? {
      ItemFacts(s, c.item);
      TakenOut(s, c.item, b);
    }
    hide Inv, HasShipment, HasBoxShipment, HasWholeBoxRow, BoxConflict, Children;
  }

  // The item taken out of its box leaves the others in it.
  lemma TakenOut(s: State, i: Id, b: Id)
    requires i in s.items && b in s.boxes
    ensures s.items[i].box == Some(b) ==>
      (|Children(s.items[i := ClearedItem(s.products, s.items[i])], b)| == 0 <==> Children(s.items, b) == {i})
  {
    if s.items[i].box == Some(b) {
      assert i in Children(s.items, b);
      assert Children(s.items[i := ClearedItem(s.products, s.items[i])], b) == Children(s.items, b) - {i};
    }
  }

  lemma ReturnBoxes(s: State, c: Command, b: Id)
    requires Inv(s) && IsReturn(c) && HandleReturn(s, c).reply == Done && b in s.boxes
    ensures var t := HandleReturn(s, c).state; b in t.boxes && BoxLaw(s, c, b, t.boxes[b])
  {
    ReturnBoxRewrites(s, c, b);
    hide Inv, HandleReturn, Emptied, TakesFrom;
  }

  lemma ShipmentBoxRewrites(s: State, c: Command, b: Id)
    requires Inv(s) && IsShipment(c) && HandleShipment(s, c).reply == Done && b in s.boxes
    ensures var t, box := HandleShipment(s, c).state, s.boxes[b];
      b in t.boxes && t.boxes[b] == (
        if c.ShipBox? && c.box == b then box.(status := BoxShipped, distributor := Some(c.distributor), shippedAt := Some(c.now))
        else if c == CancelShipBox(b) then box.(status := BoxInStock, distributor := None, shippedAt := None)
        else box)
  {
    hide Inv, HasShipment, HasBoxShipment, CanShipBox, CanShipItem, CanCancelShipBox;
  }

  lemma ShipmentBoxes(s: State, c: Command, b: Id)
    requires Inv(s) && IsShipment(c) && HandleShipment(s, c).reply == Done && b in s.boxes
    ensures var t := HandleShipment(s, c).state; b in t.boxes && BoxLaw(s, c, b, t.boxes[b])
  {
    ShipmentBoxRewrites(s, c, b);
    hide Inv, HandleShipment;
  }

  lemma CodeBoxes(s: State, c: Command, b: Id)
    requires Inv(s) && !IsReceipt(c) && !IsReturn(c) && !IsShipment(c) && HandleCode(s, c).reply == Done
    requires b in s.boxes && b in HandleCode(s, c).state.boxes
    ensures BoxLaw(s, c, b, HandleCode(s, c).state.boxes[b])
  {
    CodeBoxRewrites(s, c, b);
    hide Inv, HandleCode;
  }

  lemma CodeBoxRewrites(s: State, c: Command, b: Id)
    requires Inv(s) && !IsReceipt(c) && !IsReturn(c) && !IsShipment(c) && HandleCode(s, c).reply == Done
    requires b in s.boxes && b in HandleCode(s, c).state.boxes
    ensures HandleCode(s, c).state.boxes[b] == if c == InvalidateBox(b) then s.boxes[b].(status := BoxInvalid) else s.boxes[b]
  {
    hide CanGenerate, CanDeleteProduct, CanDeleteBox, CanDeleteItem, BoxTriggerPasses, ItemTriggerPasses;
  }

  // Every box row that stays.
  lemma BoxEffects(s: State, c: Command, b: Id)
    requires Inv(s) && Handle(s, c).reply == Done && b in s.boxes && b in Handle(s, c).state.boxes
    ensures BoxLaw(s, c, b, Handle(s, c).state.boxes[b])
  {
    hide Inv, HandleReceipt, HandleReturn, HandleShipment, HandleCode, BoxLaw;
    if IsReceipt(c) {
      ReceiptBoxes(s, c, b);
    } else if IsReturn(c) {
      ReturnBoxes(s, c, b);
    } else if IsShipment(c) {
      ShipmentBoxes(s, c, b);
    } else {
      CodeBoxes(s, c, b);
    }
  }

  /******* The other tables *******/

  ghost predicate TablesLaw(s: State, c: Command, t: State) {
    && ItemKeysLaw(s, c, t.items) && BoxKeysLaw(s, c, t.boxes)
    && ShipmentsLaw(s, c, t.shipments) && RecordsLaw(s, c, t) && ProductsLaw(s, c, t.products) && NewCodeLaw(s, c, t)
  }

  lemma CodeTables(s: State, c: Command)
    requires Inv(s) && !IsReceipt(c) && !IsReturn(c) && !IsShipment(c) && HandleCode(s, c).reply == Done
    ensures TablesLaw(s, c, HandleCode(s, c).state)
  {
    CodeRecords(s, c);
    CodeRows(s, c);
    hide Inv, HandleCode, RecordsLaw, ItemKeysLaw, BoxKeysLaw, NewCodeLaw;
  }

  lemma CodeRecords(s: State, c: Command)
    requires !IsReceipt(c) && !IsReturn(c) && !IsShipment(c) && HandleCode(s, c).reply == Done
    ensures var t := HandleCode(s, c).state; t.shipments == s.shipments && RecordsLaw(s, c, t) && ProductsLaw(s, c, t.products)
  {
    var t := HandleCode(s, c).state;
    assert t.shipments == s.shipments && t.packedItems == s.packedItems && t.packedBoxes == s.packedBoxes && ProductsLaw(s, c, t.products) by {
      hide CanGenerate, CanDeleteProduct, CanDeleteBox, CanDeleteItem, BoxTriggerPasses, ItemTriggerPasses;
    }
    hide HandleCode;
  }

  lemma CodeRows(s: State, c: Command)
    requires Inv(s) && !IsReceipt(c) && !IsReturn(c) && !IsShipment(c) && HandleCode(s, c).reply == Done
    ensures var t := HandleCode(s, c).state; ItemKeysLaw(s, c, t.items) && BoxKeysLaw(s, c, t.boxes) && NewCodeLaw(s, c, t)
  {
    if c.GenerateBox? || c.InsertBox? { NewBoxes(s, c); }
    if c.GenerateItem? || c.InsertItem? { NewItems(s, c); }
    hide Inv, CanDeleteProduct, CanDeleteBox, CanDeleteItem, CanGenerate, BoxTriggerPasses, ItemTriggerPasses;
    hide FreshBox, FreshItem, NewBox, NewItem, IsNewBox, IsNewItem;
  }

  lemma NewBoxes(s: State, c: Command)
    requires (c.GenerateBox? || c.InsertBox?) && HandleCode(s, c).reply == Done
    ensures var t := HandleCode(s, c).state;
      s.nextBox in t.boxes && IsNewBox(s, c.boxProduct, c.brand, c.batch, t.boxes[s.nextBox])
  {
  }

  lemma NewItems(s: State, c: Command)
    requires (c.GenerateItem? || c.InsertItem?) && HandleCode(s, c).reply == Done
    ensures var t := HandleCode(s, c).state;
      s.nextItem in t.items && IsNewItem(s, c.itemProduct, c.brand, c.batch, t.items[s.nextItem])
  {
  }

  // Receipts, returns and shipments make and delete no codes.
  lemma OtherRows(s: State, c: Command)
    requires IsReceipt(c) || IsReturn(c) || IsShipment(c)
    requires Handle(s, c).reply == Done
    ensures var t := Handle(s, c).state;
      t.items.Keys == s.items.Keys && t.boxes.Keys == s.boxes.Keys && t.products == s.products
  {
    ReceiptRows(s, c);
    ReturnRows(s, c);
    ShipmentRows(s, c);
    hide HandleReceipt, HandleReturn, HandleShipment, HandleCode;
  }

  lemma ReturnRows(s: State, c: Command)
    ensures var t := HandleReturn(s, c).state;
      t.items.Keys == s.items.Keys && t.boxes.Keys == s.boxes.Keys && t.products == s.products
  {
    hide HasShipment, HasBoxShipment, ClearedBox, ClearedItem;
  }

  lemma ShipmentRows(s: State, c: Command)
    ensures var t := HandleShipment(s, c).state;
      t.items.Keys == s.items.Keys && t.boxes.Keys == s.boxes.Keys && t.products == s.products
  {
    hide HasShipment, HasBoxShipment, HasWholeBoxRow, EffectiveBrand, Differ;
  }

  lemma ReceiptRows(s: State, c: Command)
    ensures var t := HandleReceipt(s, c).state;
      t.items.Keys == s.items.Keys && t.boxes.Keys == s.boxes.Keys && t.products == s.products
  {
    hide HasShipment, BoxConflict, BoxTriggerPasses, Children, BindFactory, PackingFactory, BindableItem, BoundInto;
  }

  lemma ShipmentTables(s: State, c: Command)
    requires Inv(s) && IsShipment(c) && HandleShipment(s, c).reply == Done
    ensures var t := HandleShipment(s, c).state; ShipmentsLaw(s, c, t.shipments) && RecordsLaw(s, c, t)
  {
    var t := HandleShipment(s, c).state;
    hide Inv, HasShipment, HasBoxShipment, CanShipBox, CanCancelShipBox;
    assert t.packedItems == s.packedItems && t.packedBoxes == s.packedBoxes;
    if c.CancelShipBox? {
      assert t.shipments.Keys == set r | r in s.shipments && s.shipments[r].box != Some(c.box);
    } else if c.CancelShipItem? {
      assert t.shipments.Keys == set r | r in s.shipments && s.shipments[r].item != Some(c.item);
    }
  }

  lemma ReturnTables(s: State, c: Command)
    requires Inv(s) && IsReturn(c) && HandleReturn(s, c).reply == Done
    ensures var t := HandleReturn(s, c).state; t.shipments == s.shipments && RecordsLaw(s, c, t)
  {
    if c.CancelStockBox? {
      forall i: Id ensures i in Children(s.items, c.box) <==> i in s.items && s.items[i].box == Some(c.box) {}
    } else {
      ItemFacts(s, c.item);
    }
    hide Inv, HasShipment, HasBoxShipment, ClearedBox, ClearedItem, BoxConflict, Children;
  }

  lemma ReceiptTables(s: State, c: Command)
    requires Inv(s) && IsReceipt(c) && HandleReceipt(s, c).reply == Done
    ensures var t := HandleReceipt(s, c).state; t.shipments == s.shipments && RecordsLaw(s, c, t)
  {
    hide Inv, HasShipment, BoxConflict, BoxTriggerPasses, Children, BindFactory, PackingFactory, BindableItem, BoundItems, BoundInto;
    if c.Bind? {
      BindTables(s, c);
      hide HandleReceipt, RecordsLaw;
    } else if c.Scan? {
      assert c.item in s.items && EnteredBox(s, c, c.item) == Some(c.box);
    }
  }

  lemma BindTables(s: State, c: Command)
    requires c.Bind? && HandleReceipt(s, c).reply == Done
    ensures var t := HandleReceipt(s, c).state; t.shipments == s.shipments && RecordsLaw(s, c, t)
  {
    var added := NewChildren(s.items, c.codes);
    forall i: Id ensures i in added <==> i in s.items && EnteredBox(s, c, i).Some? {}
    if added != {} { var i :| i in added; assert EnteredBox(s, c, i) == Some(c.box); }
    hide HasShipment, BoxConflict, Children, BindFactory, BindableItem, BoundItems, NewChildren;
  }

  lemma TableEffects(s: State, c: Command)
    requires Inv(s) && Handle(s, c).reply == Done
    ensures TablesLaw(s, c, Handle(s, c).state)
  {
    hide Inv, HandleReceipt, HandleReturn, HandleShipment, HandleCode, RecordsLaw;
    if IsReceipt(c) {
      ReceiptTables(s, c);
      OtherRows(s, c);
    } else if IsReturn(c) {
      ReturnTables(s, c);
      OtherRows(s, c);
    } else if IsShipment(c) {
      ShipmentTables(s, c);
      OtherRows(s, c);
    } else {
      CodeTables(s, c);
    }
  }

  // A request that is not done changes nothing, but a repeated scan is logged.
  lemma NotDoneLeavesAlone(s: State, c: Command)
    ensures Handle(s, c).reply == Refused || Handle(s, c).reply == Conflict ==> Handle(s, c).state == s
    ensures Handle(s, c).reply == Repeated ==>
      c.Scan? && Handle(s, c).state == s.(packedBoxes := s.packedBoxes + {c.box}, packedItems := s.packedItems + {c.item})
  {
    hide CanBind, CanConfirm, CanScan, CanScanNobox, ScanReaches, CanSetProduct, BoxTriggerPasses, Children;
    hide CanUnbind, CanCancelStockBox, CanCancelStockItem, CanShipBox, CanShipItem, CanCancelShipBox, CanCancelShipItem;
  }
}
