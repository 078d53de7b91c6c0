// What the invariant means for stock, shipments and histories.
module PackingTheorems {
  import opened Wrappers
  import opened PackingTables
  import opened PackingHandlers
  import opened PackingInvariant
  import opened PackingReceiptPreserved
  import opened PackingShippingPreserved

  /******* Every reachable state *******/

  lemma StockAgrees(commands: seq<Command>)
    ensures var s := Run(EMPTY_DATABASE, commands);
      && (forall b :: b in s.boxes ==>
            && s.boxes[b].itemCount == |Children(s.items, b)|
            && (s.boxes[b].boxSize > 0 ==> s.boxes[b].itemCount <= s.boxes[b].boxSize))
      && (forall i :: i in s.items && s.items[i].box.Some? ==>
            && s.items[i].box.value in s.boxes
            && Agree(s.boxes[s.items[i].box.value], s.items[i])
            && s.items[i].factory == s.boxes[s.items[i].box.value].factory
            && s.items[i].product.Some? && s.items[i].brand.Some? && s.items[i].boxedAt.Some?)
  {
    ReachableInv(commands);
    var s := Run(EMPTY_DATABASE, commands);
    forall b | b in s.boxes
      ensures s.boxes[b].itemCount == |Children(s.items, b)| && (s.boxes[b].boxSize > 0 ==> s.boxes[b].itemCount <= s.boxes[b].boxSize)
    {
      assert BoxRowOk(s, b);
    }
    forall i | i in s.items && s.items[i].box.Some?
      ensures s.items[i].box.value in s.boxes && Agree(s.boxes[s.items[i].box.value], s.items[i])
      ensures s.items[i].factory == s.boxes[s.items[i].box.value].factory
      ensures s.items[i].product.Some? && s.items[i].brand.Some? && s.items[i].boxedAt.Some?
    {
      assert ItemRowOk(s, i);
    }
  }

  lemma ShippedBoxIsComplete(commands: seq<Command>, b: Id)
    requires b in Run(EMPTY_DATABASE, commands).boxes && Run(EMPTY_DATABASE, commands).boxes[b].status == BoxShipped
    ensures var s := Run(EMPTY_DATABASE, commands);
      var box, children := s.boxes[b], Children(s.items, b);
      && box.confirmedAt.Some? && box.product.Some? && box.distributor.Some?
      && children != {} && (box.boxSize > 0 ==> |children| == box.boxSize)
      && forall i :: i in children ==> s.items[i].distributor == box.distributor
  {
    ReachableInv(commands);
    assert BoxRowOk(Run(EMPTY_DATABASE, commands), b);
  }

  // A live shipment row covers an item when it is the item's own row or the
  // whole-box row of the box the item is in.
  ghost predicate Covers(s: State, r: Id, i: Id)
    requires i in s.items
  {
    OwnRow(s.shipments, r, i) || (s.items[i].box.Some? && WholeBoxRow(s.shipments, r, s.items[i].box.value))
  }

  ghost function CoveringRows(s: State, i: Id): set<Id>
    requires i in s.items
  {
    set r | r in s.shipments && Covers(s, r, i)
  }

  lemma CoveringRowAgrees(s: State, i: Id, r: Id)
    requires Inv(s) && i in s.items && r in CoveringRows(s, i)
    ensures s.items[i].distributor == Some(s.shipments[r].distributor)
    ensures OwnRow(s.shipments, r, i) <==> !InShippedBox(s, i)
  {
    assert ItemRowOk(s, i) && ShipmentRowOk(s, r);
    if s.items[i].box.Some? {
      assert BoxRowOk(s, s.items[i].box.value);
    }
  }

  lemma ShipmentAgreement(s: State, i: Id)
    requires Inv(s) && i in s.items
    ensures s.items[i].distributor.None? <==> CoveringRows(s, i) == {}
    ensures s.items[i].distributor.Some? <==> |CoveringRows(s, i)| == 1
    ensures forall r :: r in CoveringRows(s, i) ==> s.items[i].distributor == Some(s.shipments[r].distributor)
  {
    var rows := CoveringRows(s, i);
    assert ItemRowOk(s, i);
    forall r | r in rows ensures s.items[i].distributor == Some(s.shipments[r].distributor) {
      CoveringRowAgrees(s, i, r);
    }
    if s.items[i].distributor.Some? {
      var r := SomeCoveringRow(s, i);
      forall q | q in rows ensures q == r {
        CoveringRowAgrees(s, i, q);
        CoveringRowAgrees(s, i, r);
      }
      assert rows == {r};
    }
  }

  lemma SomeCoveringRow(s: State, i: Id) returns (r: Id)
    requires Inv(s) && i in s.items && s.items[i].distributor.Some?
    ensures r in CoveringRows(s, i)
  {
    assert ItemRowOk(s, i);
    if InShippedBox(s, i) {
      var b := s.items[i].box.value;
      assert BoxRowOk(s, b);
      r :| r in s.shipments && WholeBoxRow(s.shipments, r, b);
    } else {
      r :| r in s.shipments && OwnRow(s.shipments, r, i);
    }
  }

  /******* Shipping and taking it back *******/

  lemma BoxComesBack(s: State, b: Id, distributor: Id, brand: Option<Id>, now: nat)
    requires Inv(s) && CanShipBox(s, b, brand)
    ensures var u := DoCancelShipBox(DoShipBox(s, b, distributor, now), b);
      u.boxes == s.boxes && u.items == s.items && u.shipments == s.shipments
  {
    var u := DoCancelShipBox(DoShipBox(s, b, distributor, now), b);
    forall i | i in s.items ensures u.items[i] == s.items[i] {
      assert ItemRowOk(s, i);
      if s.items[i].box == Some(b) {
        assert i in Children(s.items, b);
        ShippedMeansDistributor(s, i);
      }
    }
  }

  lemma ShipThenCancelBox(s: State, b: Id, distributor: Id, brand: Option<Id>, now: nat)
    requires Inv(s) && CanShipBox(s, b, brand)
    ensures var t := Handle(s, ShipBox(b, distributor, brand, now)).state;
      Handle(t, CancelShipBox(b)) == Outcome(s.(nextShipment := s.nextShipment + 1), Done)
  {
    BoxComesBack(s, b, distributor, brand, now);
  }

  lemma ItemComesBack(s: State, i: Id, distributor: Id, brand: Option<Id>, now: nat)
    requires Inv(s) && CanShipItem(s, i, brand)
    ensures var t := DoShipItem(s, i, distributor, now); var u := DoCancelShipItem(t, i);
      CanCancelShipItem(t, i) && u.items == s.items && u.shipments == s.shipments
  {
    var t := DoShipItem(s, i, distributor, now);
    ShippedMeansDistributor(s, i);
    assert ItemRowOk(s, i);
    if s.items[i].box.Some? {
      OpenBoxHasNoDistributor(s, i);
      forall r | r in t.shipments ensures !WholeBoxRow(t.shipments, r, s.items[i].box.value) {
        if r != s.nextShipment { assert ShipmentRowOk(s, r); }
      }
    }
    forall r | r in s.shipments ensures s.shipments[r].item != Some(i) { assert !OwnRow(s.shipments, r, i); }
  }

  lemma ShipThenCancelItem(s: State, i: Id, distributor: Id, brand: Option<Id>, now: nat)
    requires Inv(s) && CanShipItem(s, i, brand)
    ensures var t := Handle(s, ShipItem(i, distributor, brand, now)).state;
      Handle(t, CancelShipItem(i)) == Outcome(s.(nextShipment := s.nextShipment + 1), Done)
  {
    ItemComesBack(s, i, distributor, brand, now);
  }

  /******* What one request leaves of a row *******/

  // The item is still there with its brand, and if it was invalid it still is,
  // with everything a receipt says about it frozen.
  ghost predicate ItemContinues(s: State, items: map<Id, Item>, i: Id)
    requires i in s.items
  {
    && i in items && items[i].brand == s.items[i].brand
    && (s.items[i].status == Invalid ==>
          && items[i].status == Invalid
          && items[i].box == s.items[i].box && items[i].product == s.items[i].product && items[i].batch == s.items[i].batch)
  }

  lemma BindItemContinues(s: State, b: Id, codes: set<Id>, op: Operator, requested: Option<Id>, authorised: bool, now: nat, i: Id)
    requires Inv(s) && CanBind(s, b, codes, op, requested, authorised) && i in s.items
    ensures ItemContinues(s, DoBind(s, b, codes, BindFactory(op, requested, s.boxes[b].factory, authorised).value, now).items, i)
  {
    assert ItemRowOk(s, i);
    assert i in codes ==> BindableItem(s, b, i, BindFactory(op, requested, s.boxes[b].factory, authorised).value);
  }

  lemma ReceiptItemContinues(s: State, c: Command, i: Id)
    requires Inv(s) && i in s.items
    ensures ItemContinues(s, HandleReceipt(s, c).state.items, i)
  {
    assert ItemRowOk(s, i);
    if c.Bind? && HandleReceipt(s, c).reply == Done {
      BindItemContinues(s, c.box, c.codes, c.op, c.requested, c.authorised, c.now, i);
    }
    hide DoBind, BoxConflict, HasShipment, Children, BoxTriggerPasses, BindableItem, Inv;
  }

  lemma ReturnItemContinues(s: State, c: Command, i: Id)
    requires Inv(s) && i in s.items
    ensures ItemContinues(s, HandleReturn(s, c).state.items, i)
  {
    assert ItemRowOk(s, i);
    if c.CancelStockBox? { assert i in Children(s.items, c.box) <==> s.items[i].box == Some(c.box); }
  }

  lemma ShipmentItemContinues(s: State, c: Command, i: Id)
    requires Inv(s) && i in s.items
    ensures ItemContinues(s, HandleShipment(s, c).state.items, i)
  {
    assert ItemRowOk(s, i);
    hide Inv, HasBoxShipment, HasWholeBoxRow, Differ, EffectiveBrand;
  }

  lemma CodeItemContinues(s: State, c: Command, i: Id)
    requires Inv(s) && i in s.items
    ensures var t := HandleCode(s, c).state;
      ItemContinues(s, t.items, i) || (c == DeleteItem(i) && i !in t.items && i !in s.packedItems && s.items[i].status != Invalid)
  {
    assert KeysOk(s);
    hide Inv, CanGenerate, CanDeleteProduct, CanDeleteBox, BoxTriggerPasses, ItemTriggerPasses;
    hide NewBox, FreshBox, NewItem, FreshItem, HasOwnRow;
  }

  lemma ItemContinuesOrWasUnused(s: State, c: Command, i: Id)
    requires Inv(s) && i in s.items
    ensures var t := Handle(s, c).state;
      ItemContinues(s, t.items, i) || (c == DeleteItem(i) && i !in t.items && i !in s.packedItems && s.items[i].status != Invalid)
  {
    ReceiptItemContinues(s, c, i);
    ReturnItemContinues(s, c, i);
    ShipmentItemContinues(s, c, i);
    CodeItemContinues(s, c, i);
    hide Inv, HandleReceipt, HandleReturn, HandleShipment, HandleCode, ItemContinues;
  }

  lemma ReceiptKeepsBoxBrand(s: State, c: Command, b: Id)
    requires Inv(s) && b in s.boxes
    ensures b in HandleReceipt(s, c).state.boxes && HandleReceipt(s, c).state.boxes[b].brand == s.boxes[b].brand
  {
    assert BoxRowOk(s, b);
    if c.SetProduct? && c.product in s.products { assert s.products[c.product].brand.Some?; }
  }

  lemma ReturnKeepsBoxBrand(s: State, c: Command, b: Id)
    requires Inv(s) && b in s.boxes
    ensures b in HandleReturn(s, c).state.boxes && HandleReturn(s, c).state.boxes[b].brand == s.boxes[b].brand
  {
    assert BoxRowOk(s, b);
  }

  lemma BoxKeepsBrand(s: State, c: Command, b: Id)
    requires Inv(s) && b in s.boxes
    ensures var t := Handle(s, c).state;
      if b in t.boxes then t.boxes[b].brand == s.boxes[b].brand else c == DeleteBox(b) && b !in s.packedBoxes
  {
    assert BoxRowOk(s, b);
    ReceiptKeepsBoxBrand(s, c, b);
    ReturnKeepsBoxBrand(s, c, b);
    hide HandleReceipt, HandleReturn;
  }

  /******* Over whole runs *******/

  // Ids are never handed out twice and packing records never forgotten.
  ghost predicate Grows(s: State, t: State) {
    && s.nextBox <= t.nextBox && s.nextItem <= t.nextItem
    && s.packedBoxes <= t.packedBoxes && s.packedItems <= t.packedItems
    && (forall b :: b in t.boxes ==> b in s.boxes || b >= s.nextBox)
    && (forall i :: i in t.items ==> i in s.items || i >= s.nextItem)
  }

  lemma ReceiptGrows(s: State, c: Command)
    ensures Grows(s, HandleReceipt(s, c).state)
  {
  }

  lemma ReturnGrows(s: State, c: Command)
    ensures Grows(s, HandleReturn(s, c).state)
  {
  }

  lemma IdsAndRecordsGrow(s: State, c: Command)
    ensures Grows(s, Handle(s, c).state)
  {
    ReceiptGrows(s, c);
    ReturnGrows(s, c);
  }

  lemma {:induction false} GoneForever(s: State, commands: seq<Command>)
    requires Inv(s)
    ensures var t := Run(s, commands);
      && (forall b :: b in t.boxes && b < s.nextBox ==> b in s.boxes)
      && (forall i :: i in t.items && i < s.nextItem ==> i in s.items)
    decreases |commands|
  {
    if commands != [] {
      IdsAndRecordsGrow(s, commands[0]);
      StepKeeps(s, commands[0]);
      GoneForever(Handle(s, commands[0]).state, commands[1..]);
    }
  }

  lemma {:induction false} BrandIsForever(s: State, commands: seq<Command>)
    requires Inv(s)
    ensures var t := Run(s, commands);
      && (forall b :: b in s.boxes && b in t.boxes ==> t.boxes[b].brand == s.boxes[b].brand)
      && (forall i :: i in s.items && i in t.items ==> t.items[i].brand == s.items[i].brand)
    decreases |commands|
  {
    if commands != [] {
      var u, t := Handle(s, commands[0]).state, Run(s, commands);
      StepKeeps(s, commands[0]);
      IdsAndRecordsGrow(s, commands[0]);
      BrandIsForever(u, commands[1..]);
      GoneForever(u, commands[1..]);
      forall b | b in s.boxes && b in t.boxes ensures t.boxes[b].brand == s.boxes[b].brand {
        BoxKeepsBrand(s, commands[0], b);
      }
      forall i | i in s.items && i in t.items ensures t.items[i].brand == s.items[i].brand {
        ItemContinuesOrWasUnused(s, commands[0], i);
      }
    }
  }

  lemma {:induction false} InvalidItemIsForever(s: State, commands: seq<Command>, i: Id)
    requires Inv(s) && i in s.items && s.items[i].status == Invalid
    ensures var t := Run(s, commands);
      && i in t.items && t.items[i].status == Invalid && t.items[i].brand == s.items[i].brand
      && t.items[i].box == s.items[i].box && t.items[i].product == s.items[i].product && t.items[i].batch == s.items[i].batch
    decreases |commands|
  {
    if commands != [] {
      StepKeeps(s, commands[0]);
      ItemContinuesOrWasUnused(s, commands[0], i);
      InvalidItemIsForever(Handle(s, commands[0]).state, commands[1..], i);
    }
  }

  // A code that was ever packed stays in the tables, so no packing record dangles.
  lemma {:induction false} PackedCodesStay(s: State, commands: seq<Command>)
    requires Inv(s)
    ensures s.packedItems <= Run(s, commands).items.Keys && s.packedBoxes <= Run(s, commands).boxes.Keys
    decreases |commands|
  {
    if commands != [] {
      StepKeeps(s, commands[0]);
      IdsAndRecordsGrow(s, commands[0]);
      PackedCodesStay(Handle(s, commands[0]).state, commands[1..]);
    }
  }

  /******* Confirmed boxes are sealed *******/

  function BoxOf(items: map<Id, Item>, i: Id): Option<Id> {
    if i in items then items[i].box else None
  }

  // An item that changes boxes comes from and goes into boxes that are not
  // confirmed any more once the request is done.
  ghost predicate MovesUnsealed(s: State, t: State, i: Id) {
    var before, after := BoxOf(s.items, i), BoxOf(t.items, i);
    after != before ==>
      && (before.Some? && before.value in t.boxes ==> t.boxes[before.value].confirmedAt.None?)
      && (after.Some? ==> after.value in t.boxes && t.boxes[after.value].confirmedAt.None? &&
                          after.value in s.boxes && s.boxes[after.value].confirmedAt.None?)
  }

  lemma ReceiptMovesUnsealed(s: State, c: Command, i: Id)
    requires Inv(s)
    ensures MovesUnsealed(s, HandleReceipt(s, c).state, i)
  {
    if i in s.items { assert ItemRowOk(s, i); }
  }

  lemma ReturnMovesUnsealed(s: State, c: Command, i: Id)
    requires Inv(s)
    ensures MovesUnsealed(s, HandleReturn(s, c).state, i)
  {
    if i in s.items { assert ItemRowOk(s, i); }
  }

  lemma CodeMovesUnsealed(s: State, c: Command, i: Id)
    requires Inv(s)
    ensures MovesUnsealed(s, HandleCode(s, c).state, i)
  {
    if i in s.items { assert ItemRowOk(s, i); }
  }

  lemma ItemMovesUnsealed(s: State, c: Command, i: Id)
    requires Inv(s)
    ensures MovesUnsealed(s, Handle(s, c).state, i)
  {
    CodeMovesUnsealed(s, c, i);
    ReceiptMovesUnsealed(s, c, i);
    ReturnMovesUnsealed(s, c, i);
  }

  lemma StillConfirmedStillSame(s: State, t: State, b: Id)
    requires b in t.boxes && t.boxes[b].confirmedAt.Some?
    requires forall i {:trigger MovesUnsealed(s, t, i)} :: MovesUnsealed(s, t, i)
    ensures Children(t.items, b) == Children(s.items, b)
  {
    forall i ensures i in Children(t.items, b) <==> i in Children(s.items, b) {
      assert MovesUnsealed(s, t, i);
    }
  }

  lemma ConfirmedBoxIsSealed(s: State, c: Command, b: Id)
    requires Inv(s) && b in s.boxes && s.boxes[b].confirmedAt.Some?
    ensures var t := Handle(s, c).state;
      b in t.boxes ==> t.boxes[b].confirmedAt.None? || Children(t.items, b) == Children(s.items, b)
  {
    var t := Handle(s, c).state;
    if b in t.boxes && t.boxes[b].confirmedAt.Some? {
      forall i ensures MovesUnsealed(s, t, i) { ItemMovesUnsealed(s, c, i); }
      StillConfirmedStillSame(s, t, b);
    }
  }

  /******* Where the guards and the triggers disagree *******/

  lemma SetProductTrigger(s: State, b: Id, p: Id, op: Operator, requested: Option<Id>, size: int, batch: string, authorised: bool)
    requires Inv(s) && CanSetProduct(s, b, p, op, requested, size, batch, authorised)
    ensures BoxTriggerPasses(s.products, s.items, b, BoxWithProduct(s, b, p, op, requested, size, batch, authorised)) <==>
      Children(s.items, b) == {} || batch == "" || batch == s.boxes[b].batch
  {
    var row := BoxWithProduct(s, b, p, op, requested, size, batch, authorised);
    assert BoxRowOk(s, b);
    forall i | i in s.items && s.items[i].box == Some(b)
      ensures i in Children(s.items, b) && (Agree(row, s.items[i]) <==> row.batch == s.boxes[b].batch)
    {
      assert ItemRowOk(s, i);
    }
  }

  // Setting the product aborts on a trigger exactly when every guard passes
  // and the batch of a box that already holds something is to change.
  lemma SetProductConflicts(s: State, b: Id, p: Id, op: Operator, requested: Option<Id>, size: int, batch: string, authorised: bool)
    requires Inv(s)
    ensures Handle(s, SetProduct(b, p, op, requested, size, batch, authorised)).reply == Conflict <==>
      && CanSetProduct(s, b, p, op, requested, size, batch, authorised)
      && Children(s.items, b) != {} && batch != "" && batch != s.boxes[b].batch
  {
    if CanSetProduct(s, b, p, op, requested, size, batch, authorised) {
      SetProductTrigger(s, b, p, op, requested, size, batch, authorised);
    }
  }

  // The requests whose guards let something through that a trigger stops.
  predicate MeetsTrigger(s: State, c: Command) {
    match c
    case SetProduct(b, p, op, requested, size, batch, authorised) =>
      && CanSetProduct(s, b, p, op, requested, size, batch, authorised)
      && Children(s.items, b) != {} && batch != "" && batch != s.boxes[b].batch
    case InsertBox(p, brand, _) => p.Some? && !(p.value in s.products && s.products[p.value].brand == Some(brand))
    case InsertItem(p, brand, _) => p.Some? && !(p.value in s.products && s.products[p.value].brand == Some(brand))
    case _ => false
  }

  lemma ConflictsExactly(s: State, c: Command)
    requires Inv(s)
    ensures Handle(s, c).reply == Conflict <==> MeetsTrigger(s, c)
  {
    OnlyTheseConflict(s, c);
    if IsReceipt(c) { ReceiptConflicts(s, c); }
    if !IsReceipt(c) && !IsReturn(c) && !IsShipment(c) { CodeConflicts(s, c); }
    hide Inv, HandleReceipt, HandleReturn, HandleShipment, HandleCode, Children, CanSetProduct;
  }

  lemma ReceiptConflicts(s: State, c: Command)
    requires Inv(s) && IsReceipt(c)
    ensures HandleReceipt(s, c).reply == Conflict <==> MeetsTrigger(s, c)
  {
    if c.SetProduct? {
      SetProductConflicts(s, c.box, c.product, c.op, c.requested, c.boxSize, c.batch, c.authorised);
    }
    hide Inv, CanBind, CanConfirm, CanScan, CanScanNobox, ScanReaches, CanSetProduct, BoxTriggerPasses, Children;
  }

  lemma OnlyTheseConflict(s: State, c: Command)
    ensures HandleReturn(s, c).reply != Conflict && HandleShipment(s, c).reply != Conflict
  {
    hide CanUnbind, CanCancelStockBox, CanCancelStockItem, CanShipBox, CanShipItem, CanCancelShipBox, CanCancelShipItem;
  }

  lemma CodeConflicts(s: State, c: Command)
    requires Inv(s) && !IsReceipt(c) && !IsReturn(c) && !IsShipment(c)
    ensures HandleCode(s, c).reply == Conflict <==> MeetsTrigger(s, c)
  {
    forall i | i in s.items ensures s.items[i].box != Some(s.nextBox) { assert ItemRowOk(s, i); }
    hide Inv, CanGenerate, CanDeleteProduct, CanDeleteBox, CanDeleteItem;
  }

  // Products keep their brands, and ids are not handed out twice.
  lemma {:induction false} ProductIsForever(s: State, commands: seq<Command>)
    requires Inv(s)
    ensures var t := Run(s, commands);
      && s.nextProduct <= t.nextProduct
      && forall p :: p in t.products && p < s.nextProduct ==> p in s.products && t.products[p].brand == s.products[p].brand
    decreases |commands|
  {
    if commands != [] {
      var u := Handle(s, commands[0]).state;
      StepKeeps(s, commands[0]);
      ProductsContinue(s, commands[0]);
      ProductIsForever(u, commands[1..]);
    }
  }

  lemma ProductsContinue(s: State, c: Command)
    requires Inv(s)
    ensures var t := Handle(s, c).state;
      && s.nextProduct <= t.nextProduct
      && forall p :: p in t.products && p < s.nextProduct ==> p in s.products && t.products[p].brand == s.products[p].brand
  {
    OnlyCodesTouchProducts(s, c);
    CodesKeepBrands(s, c);
    hide Inv, HandleReceipt, HandleReturn, HandleShipment, HandleCode;
  }

  lemma OnlyCodesTouchProducts(s: State, c: Command)
    ensures HandleReceipt(s, c).state.products == s.products && HandleReceipt(s, c).state.nextProduct == s.nextProduct
    ensures HandleReturn(s, c).state.products == s.products && HandleReturn(s, c).state.nextProduct == s.nextProduct
    ensures HandleShipment(s, c).state.products == s.products && HandleShipment(s, c).state.nextProduct == s.nextProduct
  {
    hide CanBind, CanConfirm, CanScan, CanScanNobox, ScanReaches, CanSetProduct, BoxTriggerPasses, Children;
    hide CanUnbind, CanCancelStockBox, CanCancelStockItem, CanShipBox, CanShipItem, CanCancelShipBox, CanCancelShipItem;
  }

  lemma CodesKeepBrands(s: State, c: Command)
    requires Inv(s)
    ensures var t := HandleCode(s, c).state;
      && s.nextProduct <= t.nextProduct
      && forall p :: p in t.products && p < s.nextProduct ==> p in s.products && t.products[p].brand == s.products[p].brand
  {
    hide BoxesOk, ItemsOk, ShipmentsOk, RowsUnique;
  }

  // A generation that checked its product and went on after any other
  // requests: its next code aborts exactly when the product is gone.
  lemma StartedGenerationAborts(s: State, commands: seq<Command>, p: Id, batch: string)
    requires Inv(s) && p in s.products
    ensures s.products[p].brand.Some?
    ensures var t, brand := Run(s, commands), s.products[p].brand.value;
      && (Handle(t, InsertBox(Some(p), brand, batch)).reply == Conflict <==> p !in t.products)
      && (Handle(t, InsertItem(Some(p), brand, batch)).reply == Conflict <==> p !in t.products)
  {
    hide Run, Handle;
    RunKeeps(s, commands);
    ProductIsForever(s, commands);
    var t := Run(s, commands);
    ConflictsExactly(t, InsertBox(Some(p), s.products[p].brand.value, batch));
    ConflictsExactly(t, InsertItem(Some(p), s.products[p].brand.value, batch));
  }

  // The request passes its guards and takes out the last item of the box.
  predicate TakesLast(s: State, c: Command, b: Id) {
    || (c.Unbind? && CanUnbind(s, c.item) && Children(s.items, b) == {c.item})
    || (c.CancelStockItem? && CanCancelStockItem(s, c.item, c.mode) && Children(s.items, b) == {c.item})
  }

  // An invalid box comes back in stock exactly when its last item is taken
  // out, by an unbind or by cancelling that item's stock.
  lemma ReturnRevivesBox(s: State, c: Command, b: Id)
    requires Inv(s) && b in s.boxes && s.boxes[b].status == BoxInvalid
    ensures var t := HandleReturn(s, c);
      b in t.state.boxes &&
      (t.state.boxes[b].status != BoxInvalid <==> TakesLast(s, c, b))
  {
    if (c.Unbind? || c.CancelStockItem?) && HandleReturn(s, c).reply == Done {
      assert ItemRowOk(s, c.item);
      TakingOutRevives(s, c.item, b);
    }
    hide Inv, WithoutReceipt, HasShipment, NoboxReceipt, Children;
  }

  lemma TakingOutRevives(s: State, i: Id, b: Id)
    requires i in s.items && b in s.boxes && s.boxes[b].status == BoxInvalid
    requires s.items[i].box.Some? ==> s.items[i].box.value in s.boxes
    ensures var t := WithoutReceipt(s, i);
      b in t.boxes && (t.boxes[b].status != BoxInvalid <==> Children(s.items, b) == {i})
  {
    if s.items[i].box == Some(b) {
      assert Children(WithoutReceipt(s, i).items, b) == Children(s.items, b) - {i};
      assert i in Children(s.items, b);
    }
    if Children(s.items, b) == {i} { assert i in Children(s.items, b); }
  }

  lemma ReceiptKeepsBoxInvalid(s: State, c: Command, b: Id)
    requires b in s.boxes && s.boxes[b].status == BoxInvalid
    ensures var t := HandleReceipt(s, c).state; b in t.boxes && t.boxes[b].status == BoxInvalid
  {
  }

  lemma ShipmentKeepsBoxInvalid(s: State, c: Command, b: Id)
    requires b in s.boxes && s.boxes[b].status == BoxInvalid
    ensures var t := HandleShipment(s, c).state; b in t.boxes && t.boxes[b].status == BoxInvalid
  {
  }

  lemma CodeKeepsBoxInvalid(s: State, c: Command, b: Id)
    requires Inv(s) && b in s.boxes && s.boxes[b].status == BoxInvalid
    ensures var t := HandleCode(s, c).state; b in t.boxes && t.boxes[b].status == BoxInvalid
  {
  }

  lemma InvalidBoxRevives(s: State, c: Command, b: Id)
    requires Inv(s) && b in s.boxes && s.boxes[b].status == BoxInvalid
    ensures var t := Handle(s, c);
      b in t.state.boxes &&
      (t.state.boxes[b].status != BoxInvalid <==> TakesLast(s, c, b))
  {
    ReceiptKeepsBoxInvalid(s, c, b);
    ReturnRevivesBox(s, c, b);
    ShipmentKeepsBoxInvalid(s, c, b);
    CodeKeepsBoxInvalid(s, c, b);
    hide Inv, HandleReceipt, HandleReturn, HandleShipment, HandleCode, Children;
  }
}
