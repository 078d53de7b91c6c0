// When each request is answered with success, in reachable states and in terms
// of the rows alone: both directions, for every request.
module PackingAnswers {
  import opened Wrappers
  import opened PackingTables
  import opened PackingHandlers
  import opened PackingInvariant
  import opened PackingReceiptPreserved
  import opened PackingTheorems

  /******* The factory of a receipt *******/

  // A factory account stands for its own factory; staff name one or leave it
  // to the box.
  predicate Names(op: Operator, requested: Option<Id>, existing: Option<Id>, f: Id) {
    match op
    case FactoryUser(_, own) => f == own
    case Staff(_) => requested == Some(f) || (requested.None? && existing == Some(f))
  }

  predicate Receives(op: Operator, requested: Option<Id>, existing: Option<Id>, authorised: bool, f: Id) {
    authorised && Names(op, requested, existing, f) && (existing.Some? ==> existing == Some(f))
  }

  // Binding asks for no new authorisation when staff fill a box that has a factory.
  predicate BindReceives(op: Operator, requested: Option<Id>, existing: Option<Id>, authorised: bool, f: Id) {
    if op.Staff? && existing == Some(f) then requested.None? || requested == Some(f)
    else Receives(op, requested, existing, authorised, f)
  }

  lemma FactoryChoice(op: Operator, requested: Option<Id>, existing: Option<Id>, authorised: bool, f: Id)
    ensures PackingFactory(op, requested, existing, authorised) == Some(f) <==> Receives(op, requested, existing, authorised, f)
    ensures BindFactory(op, requested, existing, authorised) == Some(f) <==> BindReceives(op, requested, existing, authorised, f)
  {
  }

  predicate NoFactoryBut(item: Item, f: Id) {
    item.factory.None? || item.factory == Some(f)
  }

  /******* When a request succeeds *******/

  // A loose item may go into the box: it was never received, and what it
  // already says agrees with the box.
  predicate MayEnter(s: State, b: Id, i: Id, f: Id)
    requires b in s.boxes && i in s.items
  {
    var box, item := s.boxes[b], s.items[i];
    && item.status == InStock && NoFactoryBut(item, f)
    && item.brand == box.brand
    && (item.product.None? || item.product == box.product)
    && (item.batch == "" || item.batch == box.batch)
  }

  predicate OpenBox(s: State, b: Id) {
    b in s.boxes && s.boxes[b].status == BoxInStock && s.boxes[b].confirmedAt.None?
  }

  function SizeOr(size: int, otherwise: int): int {
    if size != 0 then size else otherwise
  }

  predicate IsSize(size: int) {
    1 <= size <= 9007199254740991
  }

  predicate MaySetProduct(s: State, b: Id, p: Id, size: int, batch: string)
    requires b in s.boxes && p in s.products
  {
    var box, count := s.boxes[b], |Children(s.items, b)|;
    && box.brand == s.products[p].brand
    && (count == 0 || (box.product == Some(p) && (batch == "" || batch == box.batch)))
    && (batch != "" || box.batch != "")
    && IsSize(SizeOr(size, s.products[p].boxSize)) && count <= SizeOr(size, s.products[p].boxSize)
  }

  predicate MayBind(s: State, b: Id, codes: set<Id>, f: Id)
    requires b in s.boxes && codes <= s.items.Keys
  {
    && s.boxes[b].product.Some?
    && (forall i :: i in codes ==>
          if s.items[i].box == Some(b) then s.items[i].status == Scanned else MayEnter(s, b, i, f))
    && (s.boxes[b].boxSize > 0 ==>
          |Children(s.items, b)| + |set i | i in codes && s.items[i].box.None?| <= s.boxes[b].boxSize)
  }

  // The size a scan works with: the one given, else the box's, else the product's.
  function ScanSize(s: State, b: Id, size: int): int
    requires b in s.boxes
  {
    var box := s.boxes[b];
    SizeOr(size, SizeOr(box.boxSize, if box.product.Some? && box.product.value in s.products then s.products[box.product.value].boxSize else 0))
  }

  predicate MayTryScan(s: State, b: Id, i: Id, size: int, f: Id)
    requires b in s.boxes && i in s.items
  {
    s.boxes[b].product.Some? && s.boxes[b].batch != "" && IsSize(ScanSize(s, b, size)) && NoFactoryBut(s.items[i], f)
  }

  predicate LooseReceipt(s: State, i: Id, p: Id, batch: string, f: Id)
    requires i in s.items && p in s.products
  {
    var item, product := s.items[i], s.products[p];
    && item.status == InStock && NoFactoryBut(item, f)
    && item.brand == product.brand
    && (item.product.None? || item.product == Some(p))
    && (item.batch == "" || (batch == "" && product.batch == "") || item.batch == (if batch != "" then batch else product.batch))
    && (batch != "" || product.batch != "" || item.batch != "")
  }

  ghost predicate AcceptsReceipt(s: State, c: Command) {
    match c
    case SetProduct(b, p, op, requested, size, batch, authorised) =>
      && OpenBox(s, b) && p in s.products && MaySetProduct(s, b, p, size, batch)
      && exists f :: Receives(op, requested, s.boxes[b].factory, authorised, f)
    case Bind(b, codes, op, requested, authorised, _) =>
      && 1 <= |codes| <= 5000 && OpenBox(s, b) && codes <= s.items.Keys
      && exists f :: BindReceives(op, requested, s.boxes[b].factory, authorised, f) && MayBind(s, b, codes, f)
    case Scan(b, i, op, requested, size, authorised, _) =>
      && OpenBox(s, b) && i in s.items && |Children(s.items, b)| < ScanSize(s, b, size)
      && exists f :: Receives(op, requested, s.boxes[b].factory, authorised, f) && MayTryScan(s, b, i, size, f) && MayEnter(s, b, i, f)
    case Confirm(b, op, requested, authorised, _) =>
      && OpenBox(s, b) && s.boxes[b].product.Some? && |Children(s.items, b)| == ScanSize(s, b, 0) > 0
      && exists f :: Receives(op, requested, s.boxes[b].factory, authorised, f)
    case ScanNobox(i, p, op, requested, batch, authorised, _) =>
      && i in s.items && p in s.products
      && exists f :: Receives(op, requested, None, authorised, f) && LooseReceipt(s, i, p, batch, f)
    case _ => false
  }

  predicate AllScanned(s: State, b: Id) {
    forall i :: i in s.items && s.items[i].box == Some(b) ==> s.items[i].status == Scanned
  }

  predicate AcceptsReturn(s: State, c: Command) {
    match c
    case Unbind(i) => i in s.items && s.items[i].status == Scanned && s.items[i].box.Some?
    case CancelStockBox(b, mode) =>
      mode != NoBox && b in s.boxes && s.boxes[b].status == BoxInStock && s.boxes[b].product.Some? && AllScanned(s, b)
    case CancelStockItem(i, mode) =>
      && i in s.items && s.items[i].status == Scanned
      && (mode == NoBox ==> s.items[i].box.None?) && (mode == Boxed ==> s.items[i].box.Some?)
    case _ => false
  }

  // Goods go to a distributor of their own brand only, from confirmed receipts
  // only, and a box only when it is full.
  predicate AcceptsShipment(s: State, c: Command) {
    match c
    case ShipBox(b, _, brand, _) =>
      && b in s.boxes && s.boxes[b].status == BoxInStock && s.boxes[b].confirmedAt.Some?
      && brand == s.boxes[b].brand
      && AllScanned(s, b)
      && (s.boxes[b].boxSize > 0 ==> |Children(s.items, b)| == s.boxes[b].boxSize)
    case ShipItem(i, _, brand, _) =>
      && i in s.items && s.items[i].status == Scanned
      && brand == s.items[i].brand
      && (s.items[i].box.Some? ==>
            var b := s.items[i].box.value;
            b in s.boxes && s.boxes[b].confirmedAt.Some? && s.boxes[b].status == BoxInStock)
    case CancelShipBox(b) =>
      && b in s.boxes && s.boxes[b].status != BoxInvalid
      && (s.boxes[b].status == BoxShipped || exists i :: i in Children(s.items, b) && s.items[i].distributor.Some?)
    case CancelShipItem(i) =>
      && i in s.items && s.items[i].status != Invalid && s.items[i].distributor.Some?
      && (s.items[i].box.Some? ==> s.items[i].box.value in s.boxes && s.boxes[s.items[i].box.value].distributor.None?)
    case _ => false
  }

  predicate Generates(s: State, p: Option<Id>, batch: string) {
    p.None? || (p.value in s.products && batch != "")
  }

  predicate AcceptsCode(s: State, c: Command) {
    match c
    case CreateProduct(_, _, _) => true
    case EditProduct(p, _, _) => p in s.products
    case DeleteProduct(p) =>
      && p in s.products
      && (forall b :: b in s.boxes ==> s.boxes[b].product != Some(p))
      && (forall i :: i in s.items ==> s.items[i].product != Some(p))
    case GenerateBox(p, _, batch) => Generates(s, p, batch)
    case GenerateItem(p, _, batch) => Generates(s, p, batch)
    case InsertBox(p, brand, _) => p.None? || (p.value in s.products && s.products[p.value].brand == Some(brand))
    case InsertItem(p, brand, _) => p.None? || (p.value in s.products && s.products[p.value].brand == Some(brand))
    case InvalidateBox(b) => b in s.boxes && s.boxes[b].status != BoxInvalid
    case InvalidateItem(i) => i in s.items && s.items[i].status != Invalid
    case DeleteBox(b) =>
      b in s.boxes && s.boxes[b].status == BoxInStock && Children(s.items, b) == {} && b !in s.packedBoxes
    case DeleteItem(i) =>
      i in s.items && s.items[i].status == InStock && s.items[i].scannedAt.None? && i !in s.packedItems
    case VerifyScan(i, _) => i in s.items
    case _ => false
  }

  ghost predicate Accepts(s: State, c: Command) {
    if IsReceipt(c) then AcceptsReceipt(s, c)
    else if IsReturn(c) then AcceptsReturn(s, c)
    else if IsShipment(c) then AcceptsShipment(s, c)
    else AcceptsCode(s, c)
  }

  /******* Why *******/

  // What a row of a reachable state leaves open.
  lemma ItemFacts(s: State, i: Id)
    requires Inv(s) && i in s.items
    ensures var item := s.items[i];
      && item.brand.Some?
      && (HasShipment(s, i) <==> item.distributor.Some?)
      && (item.status == InStock <==> item.status != Invalid && item.boxedAt.None?)
      && (item.status == Scanned <==> item.status != Invalid && item.boxedAt.Some? && item.distributor.None?)
      && (item.boxedAt.None? ==> item.box.None? && item.distributor.None?)
      && (item.boxedAt.Some? ==> item.product.Some?)
      && (item.product.Some? ==> item.product.value in s.products && s.products[item.product.value].brand == item.brand)
      && (item.box.Some? ==> item.box.value in s.boxes && Agree(s.boxes[item.box.value], item)
                             && item.factory == s.boxes[item.box.value].factory && item.factory.Some?)
      && (item.box.Some? && s.boxes[item.box.value].distributor.Some? ==> item.distributor.Some?)
  {
    assert ItemRowOk(s, i);
    ShippedMeansDistributor(s, i);
    if s.items[i].box.Some? { assert BoxRowOk(s, s.items[i].box.value); }
  }

  lemma BoxFacts(s: State, b: Id)
    requires Inv(s) && b in s.boxes
    ensures var box := s.boxes[b];
      && box.brand.Some?
      && (box.product.Some? ==> box.product.value in s.products && s.products[box.product.value].brand == box.brand)
      && (box.confirmedAt.Some? ==> box.product.Some? && Children(s.items, b) != {})
      && (box.status == BoxShipped ==> box.distributor.Some?)
      && (box.status == BoxInStock ==> box.distributor.None?)
      && (box.shippedAt.Some? <==> box.distributor.Some?)
      && (box.distributor.Some? <==> HasWholeBoxRow(s.shipments, b))
      && (box.boxSize > 0 ==> |Children(s.items, b)| <= box.boxSize)
      && !BoxConflict(s, b)
  {
    assert BoxRowOk(s, b);
    if HasWholeBoxRow(s.shipments, b) {
      var r :| r in s.shipments && WholeBoxRow(s.shipments, r, b);
      assert ShipmentRowOk(s, r);
    }
    forall i | i in s.items && s.items[i].box == Some(b) ensures Agree(s.boxes[b], s.items[i]) { assert ItemRowOk(s, i); }
  }

  // A box that has gone out, whole or in part.
  lemma BoxShipmentFacts(s: State, b: Id)
    requires Inv(s) && b in s.boxes
    ensures HasBoxShipment(s.shipments, b) <==>
      s.boxes[b].distributor.Some? || exists i :: i in Children(s.items, b) && s.items[i].distributor.Some?
  {
    BoxFacts(s, b);
    if HasBoxShipment(s.shipments, b) {
      var r :| r in s.shipments && s.shipments[r].box == Some(b);
      assert ShipmentRowOk(s, r);
      if s.shipments[r].item.Some? {
        assert s.shipments[r].item.value in Children(s.items, b);
      }
    }
    if s.boxes[b].distributor.Some? {
      var r :| r in s.shipments && WholeBoxRow(s.shipments, r, b);
    } else if i :| i in Children(s.items, b) && s.items[i].distributor.Some? {
      assert ItemRowOk(s, i);
      var r :| r in s.shipments && OwnRow(s.shipments, r, i);
      assert ShipmentRowOk(s, r);
    }
  }

  lemma ShipmentAnswers(s: State, c: Command)
    requires Inv(s) && IsShipment(c)
    ensures HandleShipment(s, c).reply == Done <==> AcceptsShipment(s, c)
  {
    if (c.ShipBox? || c.CancelShipBox?) && c.box in s.boxes {
      BoxFacts(s, c.box);
      BoxShipmentFacts(s, c.box);
      forall i | i in s.items && s.items[i].box == Some(c.box)
        ensures i in Children(s.items, c.box) && (HasShipment(s, i) <==> s.items[i].distributor.Some?)
        ensures s.items[i].status == Scanned <==> s.items[i].status != Invalid && s.items[i].distributor.None?
      {
        ItemFacts(s, i);
        assert ItemRowOk(s, i);
      }
    }
    if (c.ShipItem? || c.CancelShipItem?) && c.item in s.items {
      ItemFacts(s, c.item);
      if s.items[c.item].box.Some? { BoxFacts(s, s.items[c.item].box.value); }
    }
    hide Inv, HasShipment, BoxConflict, HasWholeBoxRow, HasBoxShipment;
  }

  lemma ReturnAnswers(s: State, c: Command)
    requires Inv(s) && IsReturn(c)
    ensures HandleReturn(s, c).reply == Done <==> AcceptsReturn(s, c)
  {
    if c.CancelStockBox? && c.box in s.boxes {
      BoxFacts(s, c.box);
      BoxShipmentFacts(s, c.box);
      forall i | i in s.items && s.items[i].box == Some(c.box)
        ensures i in Children(s.items, c.box) && (HasShipment(s, i) <==> s.items[i].distributor.Some?)
        ensures s.items[i].status == Scanned <==> s.items[i].status != Invalid && s.items[i].distributor.None?
        ensures s.boxes[c.box].product == s.items[i].product && s.items[i].product.Some?
      {
        ItemFacts(s, i);
        assert ItemRowOk(s, i);
      }
    }
    if (c.Unbind? || c.CancelStockItem?) && c.item in s.items {
      ItemFacts(s, c.item);
      assert ItemRowOk(s, c.item);
    }
    hide Inv, HasShipment, BoxConflict, HasWholeBoxRow, HasBoxShipment, WithoutReceipt, DoCancelStockBox;
  }

  lemma CodeAnswers(s: State, c: Command)
    requires Inv(s) && !IsReceipt(c) && !IsReturn(c) && !IsShipment(c)
    ensures HandleCode(s, c).reply == Done <==> AcceptsCode(s, c)
  {
    if c.DeleteBox? && c.box in s.boxes {
      BoxFacts(s, c.box);
      BoxShipmentFacts(s, c.box);
    }
    if c.DeleteItem? && c.item in s.items {
      ItemFacts(s, c.item);
      assert HasOwnRow(s.shipments, c.item) ==> HasShipment(s, c.item);
      assert ItemRowOk(s, c.item);
    }
    forall i | i in s.items ensures s.items[i].box != Some(s.nextBox) { assert ItemRowOk(s, i); }
    hide Inv, HasShipment, BoxConflict, HasWholeBoxRow, HasBoxShipment, HasOwnRow;
  }

  lemma Factory(op: Operator, requested: Option<Id>, existing: Option<Id>, authorised: bool)
    ensures PackingFactory(op, requested, existing, authorised).Some? <==> exists f :: Receives(op, requested, existing, authorised, f)
    ensures BindFactory(op, requested, existing, authorised).Some? <==> exists f :: BindReceives(op, requested, existing, authorised, f)
  {
    var packing, binding := PackingFactory(op, requested, existing, authorised), BindFactory(op, requested, existing, authorised);
    forall f: Id ensures (packing == Some(f) <==> Receives(op, requested, existing, authorised, f))
      ensures (binding == Some(f) <==> BindReceives(op, requested, existing, authorised, f))
    {
      FactoryChoice(op, requested, existing, authorised, f);
    }
    if packing.Some? { assert Receives(op, requested, existing, authorised, packing.value); }
    if binding.Some? { assert BindReceives(op, requested, existing, authorised, binding.value); }
  }

  lemma SetProductAnswer(s: State, c: Command)
    requires Inv(s) && c.SetProduct?
    ensures HandleReceipt(s, c).reply == Done <==> AcceptsReceipt(s, c)
  {
    var b, p := c.box, c.product;
    if OpenBox(s, b) && p in s.products {
      BoxFacts(s, b);
      assert s.products[p].brand.Some?;
      Factory(c.op, c.requested, s.boxes[b].factory, c.authorised);
      forall i | i in s.items && s.items[i].box == Some(b) ensures i in Children(s.items, b) && Agree(s.boxes[b], s.items[i]) && s.items[i].product.Some? {
        ItemFacts(s, i);
        assert ItemRowOk(s, i);
      }
      if CanSetProduct(s, b, p, c.op, c.requested, c.boxSize, c.batch, c.authorised) {
        SetProductTrigger(s, b, p, c.op, c.requested, c.boxSize, c.batch, c.authorised);
      }
      if Children(s.items, b) != {} { var i :| i in Children(s.items, b); }
    }
    hide Inv, PackingFactory, Receives, BoxConflict, HasWholeBoxRow, BoxTriggerPasses;
  }

  lemma ConfirmAnswer(s: State, c: Command)
    requires Inv(s) && c.Confirm?
    ensures HandleReceipt(s, c).reply == Done <==> AcceptsReceipt(s, c)
  {
    if OpenBox(s, c.box) {
      BoxFacts(s, c.box);
      Factory(c.op, c.requested, s.boxes[c.box].factory, c.authorised);
    }
    hide Inv, PackingFactory, Receives, BoxConflict, HasWholeBoxRow, Children;
  }

  lemma ScanNoboxAnswer(s: State, c: Command)
    requires Inv(s) && c.ScanNobox?
    ensures HandleReceipt(s, c).reply == Done <==> AcceptsReceipt(s, c)
  {
    if c.item in s.items && c.product in s.products {
      ItemFacts(s, c.item);
      assert ItemRowOk(s, c.item);
      assert s.products[c.product].brand.Some?;
      Factory(c.op, c.requested, None, c.authorised);
      var factory := PackingFactory(c.op, c.requested, None, c.authorised);
      forall f: Id ensures factory == Some(f) <==> Receives(c.op, c.requested, None, c.authorised, f) {
        FactoryChoice(c.op, c.requested, None, c.authorised, f);
      }
    }
    hide Inv, PackingFactory, Receives, HasShipment;
  }

  // One item and one box, when the guards of a bind and of a scan have to agree.
  lemma EntryGuards(s: State, b: Id, i: Id, f: Id)
    requires Inv(s) && OpenBox(s, b) && s.boxes[b].product.Some? && i in s.items
    requires s.boxes[b].factory.None? || s.boxes[b].factory == Some(f)
    ensures BindableItem(s, b, i, f) <==>
      if s.items[i].box == Some(b) then s.items[i].status == Scanned else MayEnter(s, b, i, f)
  {
    BoxFacts(s, b);
    ItemFacts(s, i);
    assert ItemRowOk(s, i);
    hide Inv, HasShipment;
  }

  lemma BindAnswer(s: State, c: Command)
    requires Inv(s) && c.Bind?
    ensures HandleReceipt(s, c).reply == Done <==> AcceptsReceipt(s, c)
  {
    var b := c.box;
    if OpenBox(s, b) && c.codes <= s.items.Keys && s.boxes[b].product.Some? {
      BoxFacts(s, b);
      Factory(c.op, c.requested, s.boxes[b].factory, c.authorised);
      var factory := BindFactory(c.op, c.requested, s.boxes[b].factory, c.authorised);
      forall f: Id ensures factory == Some(f) <==> BindReceives(c.op, c.requested, s.boxes[b].factory, c.authorised, f) {
        FactoryChoice(c.op, c.requested, s.boxes[b].factory, c.authorised, f);
      }
      if factory.Some? {
        assert s.boxes[b].factory.None? || s.boxes[b].factory == factory;
        forall i | i in c.codes
          ensures BindableItem(s, b, i, factory.value) <==>
            if s.items[i].box == Some(b) then s.items[i].status == Scanned else MayEnter(s, b, i, factory.value)
        {
          EntryGuards(s, b, i, factory.value);
        }
        assert NewChildren(s.items, c.codes) == set i | i in c.codes && s.items[i].box.None?;
      }
    }
    hide Inv, BindFactory, BindReceives, BoxConflict, HasWholeBoxRow, BindableItem, MayEnter, DoBind;
  }

  lemma ScanAnswer(s: State, c: Command)
    requires Inv(s) && c.Scan?
    ensures HandleReceipt(s, c).reply == Done <==> AcceptsReceipt(s, c)
    ensures HandleReceipt(s, c).reply == Repeated <==>
      && OpenBox(s, c.box) && c.item in s.items && s.items[c.item].box == Some(c.box)
      && exists f :: Receives(c.op, c.requested, s.boxes[c.box].factory, c.authorised, f) && MayTryScan(s, c.box, c.item, c.boxSize, f)
  {
    var b := c.box;
    if OpenBox(s, b) && c.item in s.items && s.boxes[b].product.Some? {
      BoxFacts(s, b);
      Factory(c.op, c.requested, s.boxes[b].factory, c.authorised);
      var factory := PackingFactory(c.op, c.requested, s.boxes[b].factory, c.authorised);
      forall f: Id ensures factory == Some(f) <==> Receives(c.op, c.requested, s.boxes[b].factory, c.authorised, f) {
        FactoryChoice(c.op, c.requested, s.boxes[b].factory, c.authorised, f);
      }
      ItemFacts(s, c.item);
      assert ItemRowOk(s, c.item);
    }
    hide Inv, PackingFactory, Receives, BoxConflict, HasWholeBoxRow, HasShipment, Children;
  }

  lemma ReceiptAnswers(s: State, c: Command)
    requires Inv(s) && IsReceipt(c)
    ensures HandleReceipt(s, c).reply == Done <==> AcceptsReceipt(s, c)
  {
    hide Inv, HandleReceipt, AcceptsReceipt;
    if c.SetProduct? {
      SetProductAnswer(s, c);
    } else if c.Bind? {
      BindAnswer(s, c);
    } else if c.Scan? {
      ScanAnswer(s, c);
    } else if c.Confirm? {
      ConfirmAnswer(s, c);
    } else {
      ScanNoboxAnswer(s, c);
    }
  }

  // Every request in every reachable state.
  lemma DoneIffAccepted(s: State, c: Command)
    requires Inv(s)
    ensures Handle(s, c).reply == Done <==> Accepts(s, c)
  {
    if IsReceipt(c) {
      ReceiptAnswers(s, c);
    } else if IsReturn(c) {
      ReturnAnswers(s, c);
    } else if IsShipment(c) {
      ShipmentAnswers(s, c);
    } else {
      CodeAnswers(s, c);
    }
    hide Inv, HandleReceipt, HandleReturn, HandleShipment, HandleCode;
    hide AcceptsReceipt, AcceptsReturn, AcceptsShipment, AcceptsCode;
  }
}
