// The handlers as they run: one statement after the other, row by row, with
// the receipt triggers firing on the columns each statement names and a
// rollback when one of them aborts.
module PackingDatabase {
  import opened Wrappers
  import opened PackingTables
  import opened PackingHandlers
  import opened PackingInvariant
  import opened PackingReceiptPreserved
  import opened PackingShippingPreserved
  import opened PackingTheorems

  class Database {
    var products: map<Id, Product>
    var boxes: map<Id, Box>
    var items: map<Id, Item>
    var shipments: map<Id, Shipment>
    var packedBoxes: set<Id>
    var packedItems: set<Id>
    var nextProduct: Id
    var nextBox: Id
    var nextItem: Id
    var nextShipment: Id

    constructor ()
      ensures View() == EMPTY_DATABASE && Inv(View())
    {
      products, boxes, items, shipments := map[], map[], map[], map[];
      packedBoxes, packedItems := {}, {};
      nextProduct, nextBox, nextItem, nextShipment := 0, 0, 0, 0;
    }

    function View(): State
      reads this
    {
      State(products, boxes, items, shipments, packedBoxes, packedItems, nextProduct, nextBox, nextItem, nextShipment)
    }

    /******* Statements *******/

    // ROLLBACK
    method Restore(saved: State)
      modifies this
      ensures View() == saved
    {
      products, boxes, items, shipments := saved.products, saved.boxes, saved.items, saved.shipments;
      packedBoxes, packedItems := saved.packedBoxes, saved.packedItems;
      nextProduct, nextBox, nextItem, nextShipment := saved.nextProduct, saved.nextBox, saved.nextItem, saved.nextShipment;
    }

    // The end of a transaction: COMMIT, or ROLLBACK when a statement aborted.
    method EndTransaction(ok: bool, saved: State) returns (reply: Reply)
      modifies this
      ensures Outcome(View(), reply) == if ok then Outcome(old(View()), Done) else Outcome(saved, Conflict)
    {
      reply := Done;
      if !ok {
        Restore(saved);
        reply := Conflict;
      }
    }

    // An UPDATE of an item's product, brand, batch or box.
    method WriteItem(i: Id, row: Item) returns (ok: bool)
      modifies this`items
      ensures ok <==> ItemTriggerPasses(products, boxes, row)
      ensures items == if ok then old(items)[i := row] else old(items)
    {
      ok := ItemTriggerPasses(products, boxes, row);
      if ok { items := items[i := row]; }
    }

    // An UPDATE of a box's product, brand or batch.
    method WriteBox(b: Id, row: Box) returns (ok: bool)
      modifies this`boxes
      ensures ok <==> BoxTriggerPasses(products, items, b, row)
      ensures boxes == if ok then old(boxes)[b := row] else old(boxes)
    {
      ok := BoxTriggerPasses(products, items, b, row);
      if ok { boxes := boxes[b := row]; }
    }

    // An UPDATE of an item's status to shipped.
    method WriteShippedItem(i: Id, row: Item) returns (ok: bool)
      modifies this`items
      ensures ok <==> ShipTriggerPasses(products, boxes, row)
      ensures items == if ok then old(items)[i := row] else old(items)
    {
      ok := ShipTriggerPasses(products, boxes, row);
      if ok { items := items[i := row]; }
    }

    method AddShipment(row: Shipment)
      modifies this`shipments, this`nextShipment
      ensures shipments == old(shipments)[old(nextShipment) := row] && nextShipment == old(nextShipment) + 1
    {
      shipments := shipments[nextShipment := row];
      nextShipment := nextShipment + 1;
    }

    /******* Taking goods in *******/

    lemma BindOneMore(before: map<Id, Item>, b: Id, box: Box, brand: Option<Id>, done: set<Id>, i: Id, factory: Id, now: nat)
      requires i in before && i !in done
      ensures BoundItems(before, b, box, brand, done, factory, now)[i] == before[i]
      ensures if before[i].box.Some? then
          && BoundItems(before, b, box, brand, done + {i}, factory, now) == BoundItems(before, b, box, brand, done, factory, now)
          && NewChildren(before, done + {i}) == NewChildren(before, done)
        else
          && BoundItems(before, b, box, brand, done + {i}, factory, now)
             == BoundItems(before, b, box, brand, done, factory, now)[i := BoundInto(b, box, brand, before[i], factory, now)]
          && NewChildren(before, done + {i}) == NewChildren(before, done) + {i}
    {
    }

    // One requested item: skipped when it is in a box already.
    method BindRow(i: Id, b: Id, box: Box, brand: Option<Id>, factory: Id, now: nat) returns (ok: bool)
      requires i in items
      modifies this`items, this`packedItems, this`packedBoxes
      ensures old(items)[i].box.Some? ==> ok && items == old(items) && packedItems == old(packedItems) && packedBoxes == old(packedBoxes)
      ensures old(items)[i].box.None? ==> (ok <==> ItemTriggerPasses(products, boxes, BoundInto(b, box, brand, old(items)[i], factory, now)))
      ensures old(items)[i].box.None? && ok ==>
        && items == old(items)[i := BoundInto(b, box, brand, old(items)[i], factory, now)]
        && packedItems == old(packedItems) + {i} && packedBoxes == old(packedBoxes) + {b}
    {
      ok := true;
      if items[i].box.None? {
        var row := BoundInto(b, box, brand, items[i], factory, now);
        ok := WriteItem(i, row.(factory := items[i].factory));
        if ok {
          items := items[i := row];
          packedItems, packedBoxes := packedItems + {i}, packedBoxes + {b};
        }
      }
    }

    // The rows of one bind, in any order; stops at the first aborted statement.
    method BindRows(b: Id, box: Box, brand: Option<Id>, codes: set<Id>, factory: Id, now: nat) returns (ok: bool)
      requires codes <= items.Keys
      modifies this`items, this`packedItems, this`packedBoxes
      ensures ok <==> BindRowsPass(products, boxes, old(items), b, box, brand, codes, factory, now)
      ensures ok ==>
        && items == BoundItems(old(items), b, box, brand, codes, factory, now)
        && packedItems == old(packedItems) + NewChildren(old(items), codes)
        && packedBoxes == if NewChildren(old(items), codes) == {} then old(packedBoxes) else old(packedBoxes) + {b}
    {
      hide ItemTriggerPasses;
      ghost var before := items;
      var done := {};
      ok := true;
      while codes - done != {} && ok
        invariant done <= codes
        invariant ok ==> items == BoundItems(before, b, box, brand, done, factory, now)
        invariant ok ==> packedItems == old(packedItems) + NewChildren(before, done)
        invariant ok ==> packedBoxes == if NewChildren(before, done) == {} then old(packedBoxes) else old(packedBoxes) + {b}
        invariant ok ==> BindRowsPass(products, boxes, before, b, box, brand, done, factory, now)
        invariant !ok ==> !BindRowsPass(products, boxes, before, b, box, brand, codes, factory, now)
        decreases codes - done
      {
        var i :| i in codes - done;
        BindOneMore(before, b, box, brand, done, i, factory, now);
        ok := BindRow(i, b, box, brand, factory, now);
        done := done + {i};
      }
    }

    method BindStatements(b: Id, codes: set<Id>, factory: Id, now: nat) returns (reply: Reply)
      requires b in boxes && codes <= items.Keys
      requires BindRowsPass(products, boxes[b := boxes[b].(factory := Some(factory))], items, b, boxes[b],
                            EffectiveBrand(View(), boxes[b].brand, boxes[b].product), codes, factory, now)
      modifies this
      ensures Outcome(View(), reply) == Outcome(DoBind(old(View()), b, codes, factory, now), Done)
    {
      hide BindRowsPass, BoundItems, NewChildren, Children;
      var saved := View();
      var box := boxes[b];
      boxes := boxes[b := box.(factory := Some(factory))];
      var ok := BindRows(b, box, EffectiveBrand(saved, box.brand, box.product), codes, factory, now);
      boxes := boxes[b := boxes[b].(itemCount := |Children(items, b)|)];
      reply := EndTransaction(ok, saved);
    }

    method Bind(b: Id, codes: set<Id>, op: Operator, requested: Option<Id>, authorised: bool, now: nat) returns (reply: Reply)
      requires Inv(View()) && CanBind(View(), b, codes, op, requested, authorised)
      modifies this
      ensures Outcome(View(), reply) ==
        Outcome(DoBind(old(View()), b, codes, BindFactory(op, requested, old(View()).boxes[b].factory, authorised).value, now), Done)
    {
      var factory := BindFactory(op, requested, boxes[b].factory, authorised).value;
      BindPassesTriggers(View(), b, codes, op, requested, authorised, boxes[b := boxes[b].(factory := Some(factory))], factory, now);
      reply := BindStatements(b, codes, factory, now);
    }

    method SetProduct(b: Id, p: Id, op: Operator, requested: Option<Id>, size: int, batch: string, authorised: bool) returns (reply: Reply)
      requires CanSetProduct(View(), b, p, op, requested, size, batch, authorised)
      modifies this
      ensures Outcome(View(), reply) == HandleReceipt(old(View()), Command.SetProduct(b, p, op, requested, size, batch, authorised))
    {
      var saved := View();
      var ok := WriteBox(b, BoxWithProduct(saved, b, p, op, requested, size, batch, authorised));
      reply := EndTransaction(ok, saved);
    }

    method Scan(b: Id, i: Id, op: Operator, requested: Option<Id>, size: int, authorised: bool, now: nat) returns (reply: Reply)
      requires Inv(View()) && CanScan(View(), b, i, op, requested, size, authorised)
      modifies this
      ensures Outcome(View(), reply) == Outcome(DoScan(old(View()), b, i, op, requested, size, authorised, now), Done)
    {
      var saved := View();
      var box := boxes[b];
      var count := |Children(items, b)|;
      var factory := PackingFactory(op, requested, box.factory, authorised).value;
      ScanAttaches(saved, Command.Scan(b, i, op, requested, size, authorised, now));
      BoundRowPassesTrigger(saved, b, i, boxes, factory, now);
      var ok := WriteItem(i, BoundInto(b, box, EffectiveBrand(saved, box.brand, box.product), items[i], factory, now));
      boxes := boxes[b := box.(itemCount := count + 1,
      boxSize := EffectiveSize(size, box.boxSize, products[box.product.value].boxSize), factory := Some(factory))];
      packedBoxes, packedItems := packedBoxes + {b}, packedItems + {i};
      reply := EndTransaction(ok, saved);
    }

    // The rows of one UPDATE items SET receipt_factory_id WHERE box_id.
    method ConfirmRows(b: Id, factory: Option<Id>)
      modifies this`items
      ensures items == map i | i in old(items) :: if old(items)[i].box == Some(b) then old(items)[i].(factory := factory) else old(items)[i]
    {
      ghost var before := items;
      var rest := Children(items, b);
      while rest != {}
        invariant rest <= Children(before, b)
        invariant items == map i | i in before ::
          if before[i].box == Some(b) && i !in rest then before[i].(factory := factory) else before[i]
        decreases rest
      {
        var i :| i in rest;
        items := items[i := items[i].(factory := factory)];
        rest := rest - {i};
      }
    }

    method Confirm(b: Id, op: Operator, requested: Option<Id>, authorised: bool, now: nat) returns (reply: Reply)
      requires CanConfirm(View(), b, op, requested, authorised)
      modifies this
      ensures Outcome(View(), reply) == Outcome(DoConfirm(old(View()), b, op, requested, authorised, now), Done)
    {
      var box, count := boxes[b], |Children(items, b)|;
      var factory := PackingFactory(op, requested, box.factory, authorised);
      boxes := boxes[b := box.(itemCount := count, factory := factory,
      confirmedAt := Some(now), confirmedBy := Some(op.user))];
      ConfirmRows(b, factory);
      packedBoxes := packedBoxes + {b};
      reply := Done;
    }

    method ScanNobox(i: Id, p: Id, op: Operator, requested: Option<Id>, batch: string, authorised: bool, now: nat) returns (reply: Reply)
      requires Inv(View()) && CanScanNobox(View(), i, p, op, requested, batch, authorised)
      modifies this
      ensures Outcome(View(), reply) == Outcome(DoScanNobox(old(View()), i, p, op, requested, batch, authorised, now), Done)
    {
      var saved := View();
      var product, item := products[p], items[i];
      assert product.brand.Some?;
      var ok := WriteItem(i, item.(product := Some(p), brand := Coalesce(product.brand, item.brand),
      batch := NoboxBatch(batch, product.batch, item.batch), status := Scanned, boxedAt := Some(now)));
      if ok { items := items[i := items[i].(factory := PackingFactory(op, requested, None, authorised))]; }
      packedItems := packedItems + {i};
      reply := EndTransaction(ok, saved);
    }

    /******* Undoing a receipt *******/

    // clearItemReceipt
    method ClearItem(i: Id) returns (ok: bool)
      requires i in items
      modifies this`items, this`packedItems, this`packedBoxes
      ensures ok
      ensures items == old(items)[i := ClearedItem(products, old(items)[i])]
      ensures packedItems == old(packedItems) + {i}
      ensures packedBoxes == if old(items)[i].box.Some? && old(items)[i].box.value in boxes
                             then old(packedBoxes) + {old(items)[i].box.value} else old(packedBoxes)
    {
      packedItems := packedItems + {i};
      if items[i].box.Some? && items[i].box.value in boxes { packedBoxes := packedBoxes + {items[i].box.value}; }
      ok := WriteItem(i, ClearedItem(products, items[i]));
    }

    // Unbinding an item and cancelling its stock take the same statements.
    method TakeOut(i: Id) returns (reply: Reply)
      requires Inv(View()) && i in items && !HasShipment(View(), i)
      modifies this
      ensures Outcome(View(), reply) == Outcome(WithoutReceipt(old(View()), i), Done)
    {
      var saved := View();
      var parent := items[i].box;
      assert ItemRowOk(saved, i);
      var ok := ClearItem(i);
      if parent.Some? {
        var b, count := parent.value, |Children(items, parent.value)|;
        boxes := boxes[b := boxes[b].(itemCount := count, confirmedAt := None, confirmedBy := None)];
        if count == 0 {
          forall j | j in items ensures items[j].box != Some(b) { assert j !in Children(items, b); }
          ok := WriteBox(b, ClearedBox(products, boxes[b]));
        }
      }
      reply := EndTransaction(ok, saved);
    }

    method ClearChildren(b: Id) returns (ok: bool)
      requires b in boxes
      modifies this`items, this`packedItems, this`packedBoxes
      ensures ok
      ensures items == map i | i in old(items) :: if old(items)[i].box == Some(b) then ClearedItem(products, old(items)[i]) else old(items)[i]
      ensures packedItems == old(packedItems) + Children(old(items), b)
      ensures packedBoxes == if Children(old(items), b) == {} then old(packedBoxes) else old(packedBoxes) + {b}
    {
      ghost var before := items;
      var children := Children(items, b);
      var done := {};
      ok := true;
      while children - done != {}
        invariant ok && done <= children
        invariant items == map i | i in before :: if i in done then ClearedItem(products, before[i]) else before[i]
        invariant packedItems == old(packedItems) + done
        invariant packedBoxes == if done == {} then old(packedBoxes) else old(packedBoxes) + {b}
        decreases children - done
      {
        var i :| i in children - done;
        ok := ClearItem(i);
        done := done + {i};
      }
    }

    method CancelStockBox(b: Id) returns (reply: Reply)
      requires b in boxes
      modifies this
      ensures Outcome(View(), reply) == Outcome(DoCancelStockBox(old(View()), b), Done)
    {
      var saved := View();
      var ok := ClearChildren(b);
      if ok { ok := WriteBox(b, ClearedBox(products, boxes[b])); }
      reply := EndTransaction(ok, saved);
    }

    /******* Shipping *******/

    method ShipChildren(b: Id, distributor: Id, now: nat) returns (ok: bool)
      modifies this`items
      ensures ok <==> forall i :: i in Children(old(items), b) ==> ShipTriggerPasses(products, boxes, ShippedItem(old(items)[i], distributor, now))
      ensures ok ==> (items == map i | i in old(items) ::
        if old(items)[i].box == Some(b) then ShippedItem(old(items)[i], distributor, now) else old(items)[i])
    {
      ghost var before := items;
      var children := Children(items, b);
      var done := {};
      ok := true;
      while children - done != {} && ok
        invariant done <= children
        invariant ok ==> items == map i | i in before :: if i in done then ShippedItem(before[i], distributor, now) else before[i]
        invariant ok ==> forall i :: i in done ==> ShipTriggerPasses(products, boxes, ShippedItem(before[i], distributor, now))
        invariant !ok ==> exists i :: i in children && !ShipTriggerPasses(products, boxes, ShippedItem(before[i], distributor, now))
        decreases children - done
      {
        var i :| i in children - done;
        ok := WriteShippedItem(i, ShippedItem(items[i], distributor, now));
        done := done + {i};
      }
    }

    method ShipBox(b: Id, distributor: Id, brand: Option<Id>, now: nat) returns (reply: Reply)
      requires Inv(View()) && CanShipBox(View(), b, brand)
      modifies this
      ensures Outcome(View(), reply) == Outcome(DoShipBox(old(View()), b, distributor, now), Done)
    {
      var saved := View();
      boxes := boxes[b := boxes[b].(status := BoxShipped, distributor := Some(distributor), shippedAt := Some(now))];
      forall i | i in Children(items, b) ensures ShipTriggerPasses(products, boxes, ShippedItem(items[i], distributor, now)) {
        assert ItemRowOk(saved, i);
      }
      var ok := ShipChildren(b, distributor, now);
      AddShipment(Shipment(Some(b), None, distributor));
      reply := EndTransaction(ok, saved);
    }

    method ShipItem(i: Id, distributor: Id, brand: Option<Id>, now: nat) returns (reply: Reply)
      requires Inv(View()) && CanShipItem(View(), i, brand)
      modifies this
      ensures Outcome(View(), reply) == Outcome(DoShipItem(old(View()), i, distributor, now), Done)
    {
      var saved := View();
      var parent := items[i].box;
      assert ItemRowOk(saved, i);
      var ok := WriteShippedItem(i, ShippedItem(items[i], distributor, now));
      AddShipment(Shipment(parent, Some(i), distributor));
      reply := EndTransaction(ok, saved);
    }

    method UnshipChildren(b: Id)
      modifies this`items
      ensures items == map i | i in old(items) :: if old(items)[i].box == Some(b) then UnshippedItem(old(items)[i]) else old(items)[i]
    {
      ghost var before := items;
      var children := Children(items, b);
      var done := {};
      while children - done != {}
        invariant done <= children
        invariant items == map i | i in before :: if i in done then UnshippedItem(before[i]) else before[i]
        decreases children - done
      {
        var i :| i in children - done;
        items := items[i := UnshippedItem(items[i])];
        done := done + {i};
      }
    }

    method CancelShipBox(b: Id) returns (reply: Reply)
      requires b in boxes
      modifies this
      ensures Outcome(View(), reply) == Outcome(DoCancelShipBox(old(View()), b), Done)
    {
      boxes := boxes[b := boxes[b].(status := BoxInStock, distributor := None, shippedAt := None)];
      UnshipChildren(b);
      shipments := map r | r in shipments && shipments[r].box != Some(b) :: shipments[r];
      reply := Done;
    }

    method CancelShipItem(i: Id) returns (reply: Reply)
      requires i in items
      modifies this
      ensures Outcome(View(), reply) == Outcome(DoCancelShipItem(old(View()), i), Done)
    {
      var item := items[i];
      items := items[i := item.(status := if item.box.Some? || item.boxedAt.Some? then Scanned else InStock,
      distributor := None, shippedAt := None)];
      shipments := map r | r in shipments && shipments[r].item != Some(i) :: shipments[r];
      reply := Done;
    }

    /******* Dispatch *******/

    method ServeReceipt(c: Command) returns (reply: Reply)
      requires Inv(View()) && IsReceipt(c)
      modifies this
      ensures Outcome(View(), reply) == HandleReceipt(old(View()), c)
    {
      hide Inv, CanSetProduct, CanBind, CanScan, CanConfirm, CanScanNobox, DoBind;
      reply := Refused;
      match c
      case SetProduct(b, p, op, requested, size, batch, authorised) =>
        if CanSetProduct(View(), b, p, op, requested, size, batch, authorised) {
          reply := SetProduct(b, p, op, requested, size, batch, authorised);
        }
      case Bind(b, codes, op, requested, authorised, now) =>
        if CanBind(View(), b, codes, op, requested, authorised) {
          reply := Bind(b, codes, op, requested, authorised, now);
        }
      case Scan(b, i, op, requested, size, authorised, now) =>
        if ScanReaches(View(), b, i, op, requested, size, authorised) {
          if items[i].box == Some(b) {
            packedBoxes, packedItems := packedBoxes + {b}, packedItems + {i};
            reply := Repeated;
          } else if CanScan(View(), b, i, op, requested, size, authorised) {
            reply := Scan(b, i, op, requested, size, authorised, now);
          }
        }
      case Confirm(b, op, requested, authorised, now) =>
        if CanConfirm(View(), b, op, requested, authorised) {
          reply := Confirm(b, op, requested, authorised, now);
        }
      case ScanNobox(i, p, op, requested, batch, authorised, now) =>
        if CanScanNobox(View(), i, p, op, requested, batch, authorised) {
          reply := ScanNobox(i, p, op, requested, batch, authorised, now);
        }
    }

    method ServeReturn(c: Command) returns (reply: Reply)
      requires Inv(View()) && IsReturn(c)
      modifies this
      ensures Outcome(View(), reply) == HandleReturn(old(View()), c)
    {
      reply := Refused;
      match c
      case Unbind(i) =>
        if CanUnbind(View(), i) { reply := TakeOut(i); }
      case CancelStockBox(b, mode) =>
        if CanCancelStockBox(View(), b, mode) { reply := CancelStockBox(b); }
      case CancelStockItem(i, mode) =>
        if CanCancelStockItem(View(), i, mode) { reply := TakeOut(i); }
    }

    method ServeShipment(c: Command) returns (reply: Reply)
      requires Inv(View()) && IsShipment(c)
      modifies this
      ensures Outcome(View(), reply) == HandleShipment(old(View()), c)
    {
      reply := Refused;
      match c
      case ShipBox(b, distributor, brand, now) =>
        if CanShipBox(View(), b, brand) { reply := ShipBox(b, distributor, brand, now); }
      case ShipItem(i, distributor, brand, now) =>
        if CanShipItem(View(), i, brand) { reply := ShipItem(i, distributor, brand, now); }
      case CancelShipBox(b) =>
        if CanCancelShipBox(View(), b) { reply := CancelShipBox(b); }
      case CancelShipItem(i) =>
        if CanCancelShipItem(View(), i) { reply := CancelShipItem(i); }
    }

    method GenerateBox(product: Option<Id>, brand: Id, batch: string) returns (reply: Reply)
      requires Inv(View()) && CanGenerate(View(), product, batch)
      modifies this
      ensures Outcome(View(), reply) == HandleCode(old(View()), Command.GenerateBox(product, brand, batch))
    {
      var saved := View();
      forall i | i in items ensures items[i].box != Some(nextBox) { assert ItemRowOk(saved, i); }
      var ok := WriteBox(nextBox, NewBox(saved, product, brand, batch));
      nextBox := nextBox + 1;
      reply := EndTransaction(ok, saved);
    }

    method GenerateItem(product: Option<Id>, brand: Id, batch: string) returns (reply: Reply)
      requires Inv(View()) && CanGenerate(View(), product, batch)
      modifies this
      ensures Outcome(View(), reply) == HandleCode(old(View()), Command.GenerateItem(product, brand, batch))
    {
      var saved := View();
      var ok := WriteItem(nextItem, NewItem(saved, product, brand, batch));
      nextItem := nextItem + 1;
      reply := EndTransaction(ok, saved);
    }

    // The INSERT of a later code of a started generation.
    method InsertBox(product: Option<Id>, brand: Id, batch: string) returns (reply: Reply)
      modifies this
      ensures Outcome(View(), reply) == HandleCode(old(View()), Command.InsertBox(product, brand, batch))
    {
      var saved := View();
      var ok := WriteBox(nextBox, FreshBox(product, Some(brand), batch));
      nextBox := nextBox + 1;
      reply := EndTransaction(ok, saved);
    }

    method InsertItem(product: Option<Id>, brand: Id, batch: string) returns (reply: Reply)
      modifies this
      ensures Outcome(View(), reply) == HandleCode(old(View()), Command.InsertItem(product, brand, batch))
    {
      var saved := View();
      var ok := WriteItem(nextItem, FreshItem(product, Some(brand), batch));
      nextItem := nextItem + 1;
      reply := EndTransaction(ok, saved);
    }

    method ServeCode(c: Command) returns (reply: Reply)
      requires Inv(View()) && !IsReceipt(c) && !IsReturn(c) && !IsShipment(c)
      modifies this
      ensures Outcome(View(), reply) == HandleCode(old(View()), c)
    {
      reply := Refused;
      match c
      case CreateProduct(brand, batch, size) =>
        products := products[nextProduct := Product(Some(brand), batch, size)];
        nextProduct := nextProduct + 1;
        reply := Done;
      case EditProduct(p, batch, size) =>
        if p in products {
          products := products[p := products[p].(batch := batch, boxSize := size)];
          reply := Done;
        }
      case DeleteProduct(p) =>
        if CanDeleteProduct(View(), p) { products := products - {p}; reply := Done; }
      case GenerateBox(product, brand, batch) =>
        if CanGenerate(View(), product, batch) { reply := GenerateBox(product, brand, batch); }
      case GenerateItem(product, brand, batch) =>
        if CanGenerate(View(), product, batch) { reply := GenerateItem(product, brand, batch); }
      case InsertBox(product, brand, batch) => reply := InsertBox(product, brand, batch);
      case InsertItem(product, brand, batch) => reply := InsertItem(product, brand, batch);
      case InvalidateBox(b) =>
        if b in boxes && boxes[b].status != BoxInvalid {
          boxes := boxes[b := boxes[b].(status := BoxInvalid)];
          reply := Done;
        }
      case InvalidateItem(i) =>
        if i in items && items[i].status != Invalid {
          items := items[i := items[i].(status := Invalid)];
          reply := Done;
        }
      case DeleteBox(b) =>
        if CanDeleteBox(View(), b) { boxes := boxes - {b}; reply := Done; }
      case DeleteItem(i) =>
        if CanDeleteItem(View(), i) { items := items - {i}; reply := Done; }
      case VerifyScan(i, now) =>
        if i in items { items := items[i := items[i].(scannedAt := Some(now))]; reply := Done; }
    }

    method Serve(c: Command) returns (reply: Reply)
      requires Inv(View())
      modifies this
      ensures Outcome(View(), reply) == Handle(old(View()), c)
      ensures Inv(View())
      ensures reply == Conflict <==> MeetsTrigger(old(View()), c)
    {
      hide Inv, HandleReceipt, HandleReturn, HandleShipment, HandleCode, MeetsTrigger;
      ConflictsExactly(View(), c);
      StepKeeps(View(), c);
      if IsReceipt(c) {
        reply := ServeReceipt(c);
      } else if IsReturn(c) {
        reply := ServeReturn(c);
      } else if IsShipment(c) {
        reply := ServeShipment(c);
      } else {
        reply := ServeCode(c);
      }
    }
  }
}
