// Requests that touch products, fresh codes or a single row keep the invariant.
//
// Most of them rewrite one item or one box and leave every column the other
// tables look at alone; ItemRewritten and BoxRewritten say what that means, and
// each such request needs no more than its own row shown to be right. Products
// are different: every row that mentions a product depends on its brand, so an
// edit has to keep the brand and a removal needs that no row mentions it.
module PackingPreserved {
  import opened Wrappers
  import opened PackingTables
  import opened PackingHandlers
  import opened PackingInvariant

  /******* Products *******/

  lemma ProductsKeep(s: State, products: map<Id, Product>, next: Id)
    requires Inv(s)
    requires forall p :: p in products ==> p < next && products[p].brand.Some?
    requires forall b :: b in s.boxes ==> ProductMatches(products, s.boxes[b].product, s.boxes[b].brand)
    requires forall i :: i in s.items ==> ProductMatches(products, s.items[i].product, s.items[i].brand)
    ensures Inv(s.(products := products, nextProduct := next))
  {
    var t := s.(products := products, nextProduct := next);
    forall b | b in t.boxes ensures BoxRowOk(t, b) { BoxFrame(s, t, b); }
    forall i | i in t.items ensures ItemRowOk(t, i) { ItemFrame(s, t, i); }
    forall r | r in t.shipments ensures ShipmentRowOk(t, r) { ShipmentFrame(s, t, r); }
  }

  lemma BoundProductsStay(s: State, products: map<Id, Product>, next: Id)
    requires Inv(s)
    requires forall p :: p in products ==> p < next && products[p].brand.Some?
    requires forall p :: p in s.products ==>
      if p in products then products[p].brand == s.products[p].brand else CanDeleteProduct(s, p)
    ensures Inv(s.(products := products, nextProduct := next))
  {
    forall b | b in s.boxes ensures ProductMatches(products, s.boxes[b].product, s.boxes[b].brand) {
      assert BoxRowOk(s, b);
    }
    forall i | i in s.items ensures ProductMatches(products, s.items[i].product, s.items[i].brand) {
      assert ItemRowOk(s, i);
    }
    ProductsKeep(s, products, next);
  }

  /******* Generating and deleting codes *******/

  lemma InsertBoxKeeps(s: State, product: Option<Id>, brand: Option<Id>, batch: string)
    requires Inv(s) && brand.Some? && ProductMatches(s.products, product, brand)
    ensures Inv(s.(boxes := s.boxes[s.nextBox := FreshBox(product, brand, batch)], nextBox := s.nextBox + 1))
  {
    var t := s.(boxes := s.boxes[s.nextBox := FreshBox(product, brand, batch)], nextBox := s.nextBox + 1);
    forall i | i in t.items ensures ItemRowOk(t, i) {
      assert ItemRowOk(s, i);
      ItemFrame(s, t, i);
    }
    forall b | b in t.boxes ensures BoxRowOk(t, b) {
      if b == s.nextBox {
        forall i | i in s.items ensures s.items[i].box != Some(b) { assert ItemRowOk(s, i); }
        assert Children(t.items, b) == {};
      } else {
        BoxFrame(s, t, b);
      }
    }
    forall r | r in t.shipments ensures ShipmentRowOk(t, r) { ShipmentFrame(s, t, r); }
  }

  lemma GenerateBoxKeeps(s: State, product: Option<Id>, brand: Id, batch: string)
    requires Inv(s) && CanGenerate(s, product, batch)
    ensures Inv(s.(boxes := s.boxes[s.nextBox := NewBox(s, product, brand, batch)], nextBox := s.nextBox + 1))
  {
    InsertBoxKeeps(s, product, NewBox(s, product, brand, batch).brand, batch);
  }

  lemma GenerateItemKeeps(s: State, product: Option<Id>, brand: Id, batch: string)
    requires Inv(s) && CanGenerate(s, product, batch)
    ensures Inv(s.(items := s.items[s.nextItem := NewItem(s, product, brand, batch)], nextItem := s.nextItem + 1))
  {
    InsertItemKeeps(s, product, NewItem(s, product, brand, batch).brand, batch);
  }

  lemma InsertItemKeeps(s: State, product: Option<Id>, brand: Option<Id>, batch: string)
    requires Inv(s) && brand.Some? && ProductMatches(s.products, product, brand)
    ensures Inv(s.(items := s.items[s.nextItem := FreshItem(product, brand, batch)], nextItem := s.nextItem + 1))
  {
    var t := s.(items := s.items[s.nextItem := FreshItem(product, brand, batch)], nextItem := s.nextItem + 1);
    forall b | b in t.boxes ensures BoxRowOk(t, b) {
      assert BoxRowOk(s, b);
      BoxFrame(s, t, b);
    }
    forall i | i in t.items ensures ItemRowOk(t, i) {
      if i != s.nextItem {
        assert ItemRowOk(s, i);
        ItemFrame(s, t, i);
      }
    }
    forall r | r in t.shipments ensures ShipmentRowOk(t, r) { ShipmentFrame(s, t, r); }
  }

  lemma DeleteBoxKeeps(s: State, b: Id)
    requires Inv(s) && CanDeleteBox(s, b)
    ensures Inv(s.(boxes := s.boxes - {b}))
  {
    var t := s.(boxes := s.boxes - {b});
    forall c | c in t.boxes ensures BoxRowOk(t, c) {
      assert BoxRowOk(s, c);
      BoxFrame(s, t, c);
    }
    forall i | i in t.items ensures ItemRowOk(t, i) {
      assert ItemRowOk(s, i);
      assert i !in Children(s.items, b);
      ItemFrame(s, t, i);
    }
    forall r | r in t.shipments ensures ShipmentRowOk(t, r) { ShipmentFrame(s, t, r); }
  }

  lemma DeleteItemKeeps(s: State, i: Id)
    requires Inv(s) && CanDeleteItem(s, i)
    ensures Inv(s.(items := s.items - {i}))
  {
    var t := s.(items := s.items - {i});
    assert ItemRowOk(s, i);
    forall b | b in t.boxes ensures BoxRowOk(t, b) {
      assert BoxRowOk(s, b);
      BoxFrame(s, t, b);
    }
    forall j | j in t.items ensures ItemRowOk(t, j) {
      assert ItemRowOk(s, j);
      ItemFrame(s, t, j);
    }
    forall r | r in t.shipments ensures ShipmentRowOk(t, r) {
      assert !OwnRow(s.shipments, r, i);
      ShipmentFrame(s, t, r);
    }
  }

  /******* One item row, where it is and who has it unchanged *******/

  ghost predicate ItemRewritten(s: State, t: State, i: Id) {
    && i in s.items && i in t.items
    && t == s.(items := s.items[i := t.items[i]])
    && t.items[i].box == s.items[i].box && t.items[i].distributor == s.items[i].distributor
  }

  lemma ItemRewriteKeepsBox(s: State, t: State, i: Id, b: Id)
    requires ItemRewritten(s, t, i) && b in s.boxes && BoxRowOk(s, b)
    ensures BoxRowOk(t, b)
  {
    BoxFrame(s, t, b);
  }

  lemma ItemRewriteKeeps(s: State, t: State, i: Id)
    requires Inv(s) && ItemRewritten(s, t, i) && ItemRowOk(t, i)
    ensures Inv(t)
  {
    forall b | b in t.boxes ensures BoxRowOk(t, b) {
      assert BoxRowOk(s, b);
      ItemRewriteKeepsBox(s, t, i, b);
    }
    forall j | j in t.items ensures ItemRowOk(t, j) {
      if j != i {
        assert ItemRowOk(s, j);
        ItemFrame(s, t, j);
      }
    }
    forall r | r in t.shipments ensures ShipmentRowOk(t, r) { ShipmentFrame(s, t, r); }
  }

  lemma PackedKeeps(s: State, boxes: set<Id>, items: set<Id>)
    requires Inv(s) && boxes <= s.boxes.Keys && items <= s.items.Keys
    ensures Inv(s.(packedBoxes := boxes, packedItems := items))
  {
    var t := s.(packedBoxes := boxes, packedItems := items);
    forall b | b in t.boxes ensures BoxRowOk(t, b) {
      assert BoxRowOk(s, b);
      BoxFrame(s, t, b);
    }
    forall i | i in t.items ensures ItemRowOk(t, i) {
      assert ItemRowOk(s, i);
      ItemFrame(s, t, i);
    }
    forall r | r in t.shipments ensures ShipmentRowOk(t, r) { ShipmentFrame(s, t, r); }
  }

  lemma ScanNoboxKeeps(s: State, c: Command)
    requires Inv(s) && c.ScanNobox? && CanScanNobox(s, c.item, c.product, c.op, c.requested, c.batch, c.authorised)
    ensures Inv(DoScanNobox(s, c.item, c.product, c.op, c.requested, c.batch, c.authorised, c.now))
  {
    var t := DoScanNobox(s, c.item, c.product, c.op, c.requested, c.batch, c.authorised, c.now);
    var u := s.(items := t.items);
    assert ItemRowOk(s, c.item);
    ItemRewriteKeeps(s, u, c.item);
    PackedKeeps(u, t.packedBoxes, t.packedItems);
  }

  lemma InvalidateItemKeeps(s: State, i: Id)
    requires Inv(s) && i in s.items
    ensures Inv(s.(items := s.items[i := s.items[i].(status := Invalid)]))
  {
    assert ItemRowOk(s, i);
    ItemRewriteKeeps(s, s.(items := s.items[i := s.items[i].(status := Invalid)]), i);
  }

  lemma VerifyScanKeeps(s: State, i: Id, now: nat)
    requires Inv(s) && i in s.items
    ensures Inv(s.(items := s.items[i := s.items[i].(scannedAt := Some(now))]))
  {
    assert ItemRowOk(s, i);
    ItemRewriteKeeps(s, s.(items := s.items[i := s.items[i].(scannedAt := Some(now))]), i);
  }

  /******* One box row, its contents and who has it unchanged *******/

  ghost predicate BoxRewritten(s: State, t: State, b: Id) {
    && b in s.boxes && b in t.boxes
    && t == s.(boxes := s.boxes[b := t.boxes[b]])
    && t.boxes[b].distributor == s.boxes[b].distributor
    && forall i :: i in s.items && s.items[i].box == Some(b) ==>
         Agree(t.boxes[b], s.items[i]) && t.boxes[b].factory == s.boxes[b].factory
  }

  lemma BoxRewriteKeepsItem(s: State, t: State, b: Id, i: Id)
    requires BoxRewritten(s, t, b) && i in s.items && ItemRowOk(s, i)
    ensures ItemRowOk(t, i)
  {
    ItemFrame(s, t, i);
  }

  lemma BoxRewriteKeeps(s: State, t: State, b: Id)
    requires Inv(s) && BoxRewritten(s, t, b) && BoxRowOk(t, b)
    ensures Inv(t)
  {
    forall c | c in t.boxes ensures BoxRowOk(t, c) {
      if c != b {
        assert BoxRowOk(s, c);
        BoxFrame(s, t, c);
      }
    }
    forall i | i in t.items ensures ItemRowOk(t, i) {
      assert ItemRowOk(s, i);
      BoxRewriteKeepsItem(s, t, b, i);
    }
    forall r | r in t.shipments ensures ShipmentRowOk(t, r) { ShipmentFrame(s, t, r); }
  }

  lemma InvalidateBoxKeeps(s: State, b: Id)
    requires Inv(s) && b in s.boxes
    ensures Inv(s.(boxes := s.boxes[b := s.boxes[b].(status := BoxInvalid)]))
  {
    assert BoxRowOk(s, b);
    forall i | i in s.items && s.items[i].box == Some(b) ensures Agree(s.boxes[b], s.items[i]) {
      assert ItemRowOk(s, i);
    }
    BoxRewriteKeeps(s, s.(boxes := s.boxes[b := s.boxes[b].(status := BoxInvalid)]), b);
  }

  // A box that holds something already has its receipt factory.
  lemma FilledBoxHasFactory(s: State, b: Id, i: Id)
    requires Inv(s) && b in s.boxes && i in s.items && s.items[i].box == Some(b)
    ensures s.boxes[b].factory.Some? && s.boxes[b].product.Some? && Agree(s.boxes[b], s.items[i])
  {
    assert ItemRowOk(s, i);
  }

  lemma SetProductKeeps(s: State, c: Command)
    requires Inv(s) && c.SetProduct?
    requires CanSetProduct(s, c.box, c.product, c.op, c.requested, c.boxSize, c.batch, c.authorised)
    requires BoxTriggerPasses(s.products, s.items, c.box, BoxWithProduct(s, c.box, c.product, c.op, c.requested, c.boxSize, c.batch, c.authorised))
    ensures Inv(s.(boxes := s.boxes[c.box := BoxWithProduct(s, c.box, c.product, c.op, c.requested, c.boxSize, c.batch, c.authorised)]))
  {
    var row := BoxWithProduct(s, c.box, c.product, c.op, c.requested, c.boxSize, c.batch, c.authorised);
    assert BoxRowOk(s, c.box);
    forall i | i in s.items && s.items[i].box == Some(c.box)
      ensures Agree(row, s.items[i]) && row.factory == s.boxes[c.box].factory
    {
      FilledBoxHasFactory(s, c.box, i);
    }
    BoxRewriteKeeps(s, s.(boxes := s.boxes[c.box := row]), c.box);
  }
}
