// Requests that put goods into boxes or take them out again keep the invariant.
//
// Bind and scan both attach loose items to a box that is still open: one lemma
// covers them, and with it that no row they write is refused by a trigger.
// Unbind and the two kinds of cancelled stock detach items; what has to be
// shown there is that a box which loses its last item is cleared together with
// its confirmation, and that a box which keeps some is recounted.
module PackingReceiptPreserved {
  import opened Wrappers
  import opened PackingTables
  import opened PackingHandlers
  import opened PackingInvariant
  import opened PackingPreserved

  /******* What an itemHasShipment test means *******/

  lemma ShippedMeansDistributor(s: State, i: Id)
    requires Inv(s) && i in s.items
    ensures HasShipment(s, i) <==> s.items[i].distributor.Some?
  {
    assert ItemRowOk(s, i);
    if HasOwnRow(s.shipments, i) {
      var r :| r in s.shipments && OwnRow(s.shipments, r, i);
      assert ShipmentRowOk(s, r);
    }
    if s.items[i].box.Some? {
      assert BoxRowOk(s, s.items[i].box.value);
    }
  }

  // Nothing leaves or enters a box that carries a distributor.
  lemma OpenBoxHasNoDistributor(s: State, i: Id)
    requires Inv(s) && i in s.items && s.items[i].box.Some? && !HasShipment(s, i)
    ensures s.items[i].box.value in s.boxes && s.boxes[s.items[i].box.value].distributor.None?
  {
    assert ItemRowOk(s, i);
    assert BoxRowOk(s, s.items[i].box.value);
  }

  /******* Into a box *******/

  // Both ways of filling a box: every item of `added` goes into box `b`, which
  // takes the receipt factory and the box size given.
  function Attach(s: State, b: Id, added: set<Id>, factory: Id, size: nat, now: nat): State
    requires b in s.boxes
  {
    var box := s.boxes[b];
    s.(items := BoundItems(s.items, b, box, EffectiveBrand(s, box.brand, box.product), added, factory, now),
    boxes := s.boxes[b := box.(factory := Some(factory), boxSize := size, itemCount := |Children(s.items, b)| + |added|)])
  }

  ghost predicate MayAttach(s: State, b: Id, added: set<Id>, factory: Id, size: nat) {
    && b in s.boxes
    && var box := s.boxes[b];
    && box.distributor.None? && box.confirmedAt.None? && box.product.Some?
    && (box.factory.Some? ==> box.factory.value == factory)
    && (size > 0 ==> |Children(s.items, b)| + |added| <= size)
    && forall i :: i in added ==>
         && i in s.items && s.items[i].box.None?
         && s.items[i].status != Invalid && s.items[i].distributor.None?
         && s.items[i].brand == box.brand
  }

  // The row each added item gets passes the item trigger.
  lemma BoundRowPassesTrigger(s: State, b: Id, i: Id, boxes: map<Id, Box>, factory: Id, now: nat)
    requires Inv(s) && b in s.boxes && i in s.items && s.boxes[b].product.Some?
    requires s.items[i].brand == s.boxes[b].brand
    requires b in boxes && boxes[b].product == s.boxes[b].product && boxes[b].brand == s.boxes[b].brand && boxes[b].batch == s.boxes[b].batch
    ensures ItemTriggerPasses(s.products, boxes,
              BoundInto(b, s.boxes[b], EffectiveBrand(s, s.boxes[b].brand, s.boxes[b].product), s.items[i], factory, now))
  {
    assert BoxRowOk(s, b);
  }

  lemma AttachedChildren(s: State, b: Id, added: set<Id>, factory: Id, size: nat, now: nat)
    requires MayAttach(s, b, added, factory, size)
    ensures var t := Attach(s, b, added, factory, size, now);
      Children(t.items, b) == Children(s.items, b) + added && |Children(t.items, b)| == |Children(s.items, b)| + |added|
  {
    assert Children(s.items, b) !! added;
  }

  lemma AttachKeepsBox(s: State, t: State, b: Id, c: Id, added: set<Id>, factory: Id, size: nat, now: nat)
    requires Inv(s) && MayAttach(s, b, added, factory, size)
    requires t == Attach(s, b, added, factory, size, now) && c in t.boxes
    ensures BoxRowOk(t, c)
  {
    assert BoxRowOk(s, c);
    if c == b {
      AttachedChildren(s, b, added, factory, size, now);
    } else {
      BoxFrame(s, t, c);
    }
  }

  lemma AttachKeepsItem(s: State, t: State, b: Id, i: Id, added: set<Id>, factory: Id, size: nat, now: nat)
    requires Inv(s) && MayAttach(s, b, added, factory, size)
    requires t == Attach(s, b, added, factory, size, now) && i in t.items
    ensures ItemRowOk(t, i)
  {
    assert ItemRowOk(s, i);
    assert BoxRowOk(s, b);
    if i !in added {
      ItemFrame(s, t, i);
    }
  }

  lemma AttachKeeps(s: State, t: State, b: Id, added: set<Id>, factory: Id, size: nat, now: nat)
    requires Inv(s) && MayAttach(s, b, added, factory, size)
    requires t == Attach(s, b, added, factory, size, now)
    ensures Inv(t)
  {
    forall c | c in t.boxes ensures BoxRowOk(t, c) { AttachKeepsBox(s, t, b, c, added, factory, size, now); }
    forall i | i in t.items ensures ItemRowOk(t, i) { AttachKeepsItem(s, t, b, i, added, factory, size, now); }
    forall r | r in t.shipments ensures ShipmentRowOk(t, r) { ShipmentFrame(s, t, r); }
  }

  lemma BindAttaches(s: State, b: Id, codes: set<Id>, op: Operator, requested: Option<Id>, authorised: bool)
    requires Inv(s) && CanBind(s, b, codes, op, requested, authorised)
    ensures MayAttach(s, b, NewChildren(s.items, codes), BindFactory(op, requested, s.boxes[b].factory, authorised).value, s.boxes[b].boxSize)
  {
    var factory := BindFactory(op, requested, s.boxes[b].factory, authorised).value;
    assert BoxRowOk(s, b);
    forall i | i in NewChildren(s.items, codes)
      ensures s.items[i].status != Invalid && s.items[i].distributor.None? && s.items[i].brand == s.boxes[b].brand
    {
      assert BindableItem(s, b, i, factory);
      ShippedMeansDistributor(s, i);
      assert ItemRowOk(s, i);
    }
  }

  // No row of a bind is stopped by the item trigger.
  predicate BindRowsPass(products: map<Id, Product>, boxes: map<Id, Box>, items: map<Id, Item>,
                         b: Id, box: Box, brand: Option<Id>, codes: set<Id>, factory: Id, now: nat) {
    forall i :: i in codes && i in items && items[i].box.None? ==>
      ItemTriggerPasses(products, boxes, BoundInto(b, box, brand, items[i], factory, now))
  }

  lemma BindPassesTriggers(s: State, b: Id, codes: set<Id>, op: Operator, requested: Option<Id>, authorised: bool, boxes: map<Id, Box>, factory: Id, now: nat)
    requires Inv(s) && CanBind(s, b, codes, op, requested, authorised)
    requires b in boxes && boxes[b].product == s.boxes[b].product && boxes[b].brand == s.boxes[b].brand && boxes[b].batch == s.boxes[b].batch
    ensures BindRowsPass(s.products, boxes, s.items, b, s.boxes[b], EffectiveBrand(s, s.boxes[b].brand, s.boxes[b].product), codes, factory, now)
  {
    BindAttaches(s, b, codes, op, requested, authorised);
    forall i | i in codes && i in s.items && s.items[i].box.None?
      ensures ItemTriggerPasses(s.products, boxes, BoundInto(b, s.boxes[b], EffectiveBrand(s, s.boxes[b].brand, s.boxes[b].product), s.items[i], factory, now))
    {
      assert i in NewChildren(s.items, codes);
      BoundRowPassesTrigger(s, b, i, boxes, factory, now);
    }
  }

  lemma OnlyLooseItemsBound(items: map<Id, Item>, b: Id, box: Box, brand: Option<Id>, codes: set<Id>, factory: Id, now: nat)
    ensures BoundItems(items, b, box, brand, codes, factory, now) == BoundItems(items, b, box, brand, NewChildren(items, codes), factory, now)
  {
  }

  lemma BindIsAttach(s: State, b: Id, codes: set<Id>, factory: Id, now: nat)
    requires b in s.boxes && MayAttach(s, b, NewChildren(s.items, codes), factory, s.boxes[b].boxSize)
    ensures DoBind(s, b, codes, factory, now).(packedBoxes := s.packedBoxes, packedItems := s.packedItems)
         == Attach(s, b, NewChildren(s.items, codes), factory, s.boxes[b].boxSize, now)
  {
    OnlyLooseItemsBound(s.items, b, s.boxes[b], EffectiveBrand(s, s.boxes[b].brand, s.boxes[b].product), codes, factory, now);
    AttachedChildren(s, b, NewChildren(s.items, codes), factory, s.boxes[b].boxSize, now);
  }

  lemma BindKeeps(s: State, b: Id, codes: set<Id>, op: Operator, requested: Option<Id>, authorised: bool, now: nat)
    requires Inv(s) && CanBind(s, b, codes, op, requested, authorised)
    ensures Inv(DoBind(s, b, codes, BindFactory(op, requested, s.boxes[b].factory, authorised).value, now))
  {
    var factory := BindFactory(op, requested, s.boxes[b].factory, authorised).value;
    var t := DoBind(s, b, codes, factory, now);
    var u := t.(packedBoxes := s.packedBoxes, packedItems := s.packedItems);
    BindAttaches(s, b, codes, op, requested, authorised);
    BindIsAttach(s, b, codes, factory, now);
    AttachKeeps(s, u, b, NewChildren(s.items, codes), factory, s.boxes[b].boxSize, now);
    PackedKeeps(u, t.packedBoxes, t.packedItems);
  }

  lemma ScanAttaches(s: State, c: Command)
    requires Inv(s) && c.Scan? && CanScan(s, c.box, c.item, c.op, c.requested, c.boxSize, c.authorised)
    ensures var t := DoScan(s, c.box, c.item, c.op, c.requested, c.boxSize, c.authorised, c.now);
      && MayAttach(s, c.box, {c.item}, t.boxes[c.box].factory.value, t.boxes[c.box].boxSize)
      && Attach(s, c.box, {c.item}, t.boxes[c.box].factory.value, t.boxes[c.box].boxSize, c.now)
         == t.(packedBoxes := s.packedBoxes, packedItems := s.packedItems)
  {
    var t := DoScan(s, c.box, c.item, c.op, c.requested, c.boxSize, c.authorised, c.now);
    assert BoxRowOk(s, c.box);
    assert ItemRowOk(s, c.item);
    ShippedMeansDistributor(s, c.item);
    var u := Attach(s, c.box, {c.item}, t.boxes[c.box].factory.value, t.boxes[c.box].boxSize, c.now);
    assert u.items == t.items;
  }

  lemma ScanKeeps(s: State, c: Command)
    requires Inv(s) && c.Scan? && CanScan(s, c.box, c.item, c.op, c.requested, c.boxSize, c.authorised)
    ensures Inv(DoScan(s, c.box, c.item, c.op, c.requested, c.boxSize, c.authorised, c.now))
  {
    var t := DoScan(s, c.box, c.item, c.op, c.requested, c.boxSize, c.authorised, c.now);
    var u := t.(packedBoxes := s.packedBoxes, packedItems := s.packedItems);
    ScanAttaches(s, c);
    AttachKeeps(s, u, c.box, {c.item}, t.boxes[c.box].factory.value, t.boxes[c.box].boxSize, c.now);
    PackedKeeps(u, t.packedBoxes, t.packedItems);
  }

  /******* Confirmation *******/

  lemma ConfirmKeeps(s: State, c: Command)
    requires Inv(s) && c.Confirm? && CanConfirm(s, c.box, c.op, c.requested, c.authorised)
    ensures Inv(DoConfirm(s, c.box, c.op, c.requested, c.authorised, c.now))
  {
    var t := DoConfirm(s, c.box, c.op, c.requested, c.authorised, c.now);
    assert BoxRowOk(s, c.box);
    forall i | i in s.items ensures t.items[i] == s.items[i] {
      assert ItemRowOk(s, i);
      if s.items[i].box == Some(c.box) { FilledBoxHasFactory(s, c.box, i); }
    }
    assert t.items == s.items;
    var i :| i in Children(s.items, c.box);
    FilledBoxHasFactory(s, c.box, i);
    var u := s.(boxes := t.boxes);
    forall i | i in s.items && s.items[i].box == Some(c.box) ensures Agree(u.boxes[c.box], s.items[i]) {
      assert ItemRowOk(s, i);
    }
    BoxRewriteKeeps(s, u, c.box);
    PackedKeeps(u, t.packedBoxes, t.packedItems);
  }

  /******* Out of a box *******/

  lemma ClearedItemOk(s: State, t: State, i: Id)
    requires Inv(s) && i in s.items && i in t.items
    requires t.items[i] == ClearedItem(s.products, s.items[i]) && t.products == s.products
    ensures ItemRowOk(t, i)
  {
    assert ItemRowOk(s, i);
  }

  lemma ClearedBoxOk(s: State, t: State, b: Id)
    requires Inv(s) && b in s.boxes && b in t.boxes
    requires t.boxes[b] == ClearedBox(s.products, s.boxes[b]) && t.products == s.products
    requires Children(t.items, b) == {}
    ensures BoxRowOk(t, b)
  {
    assert BoxRowOk(s, b);
  }

  // Clearing a set of items that have no shipment.
  ghost predicate Detached(s: State, t: State, gone: set<Id>) {
    && t == s.(items := t.items, boxes := t.boxes)
    && t.boxes.Keys == s.boxes.Keys && t.items.Keys == s.items.Keys
    && (forall i :: i in gone ==> i in s.items && s.items[i].distributor.None? && t.items[i] == ClearedItem(s.products, s.items[i]))
    && (forall i :: i in s.items && i !in gone ==> t.items[i] == s.items[i])
  }

  lemma DetachedBoxFrame(s: State, t: State, gone: set<Id>, b: Id)
    requires Inv(s) && Detached(s, t, gone) && b in s.boxes && t.boxes[b] == s.boxes[b]
    requires forall i :: i in gone ==> s.items[i].box != Some(b)
    ensures BoxRowOk(t, b)
  {
    assert BoxRowOk(s, b);
    BoxFrame(s, t, b);
  }

  lemma DetachedItemFrame(s: State, t: State, gone: set<Id>, i: Id)
    requires Inv(s) && Detached(s, t, gone) && i in s.items
    requires i !in gone && s.items[i].box.Some? ==>
      var b := s.items[i].box.value;
      b in s.boxes ==>
      && t.boxes[b].product == s.boxes[b].product && t.boxes[b].brand == s.boxes[b].brand
      && t.boxes[b].batch == s.boxes[b].batch && t.boxes[b].factory == s.boxes[b].factory
      && t.boxes[b].distributor == s.boxes[b].distributor
    ensures ItemRowOk(t, i)
  {
    assert ItemRowOk(s, i);
    if i in gone {
      ClearedItemOk(s, t, i);
    } else {
      ItemFrame(s, t, i);
    }
  }

  lemma DetachedKeeps(s: State, t: State)
    requires Inv(s) && t == s.(items := t.items, boxes := t.boxes)
    requires t.boxes.Keys == s.boxes.Keys && t.items.Keys == s.items.Keys
    requires forall b :: b in t.boxes ==> t.boxes[b].distributor == s.boxes[b].distributor
    requires forall i :: i in t.items && s.items[i].distributor.Some? ==> t.items[i] == s.items[i]
    requires BoxesOk(t) && ItemsOk(t)
    ensures Inv(t)
  {
    forall r | r in t.shipments ensures ShipmentRowOk(t, r) {
      assert ShipmentRowOk(s, r);
      ShipmentFrame(s, t, r);
    }
  }

  lemma EmptiedKeepsBox(s: State, t: State, b: Id, c: Id)
    requires Inv(s) && b in s.boxes && c in s.boxes && Detached(s, t, Children(s.items, b))
    requires t.boxes == s.boxes[b := ClearedBox(s.products, s.boxes[b])]
    ensures BoxRowOk(t, c)
  {
    if c == b {
      forall i | i in t.items ensures t.items[i].box != Some(b) { assert i in s.items; }
      assert Children(t.items, b) == {};
      ClearedBoxOk(s, t, b);
    } else {
      DetachedBoxFrame(s, t, Children(s.items, b), c);
    }
  }

  lemma CancelStockBoxKeeps(s: State, b: Id, mode: StockMode)
    requires Inv(s) && CanCancelStockBox(s, b, mode)
    ensures Inv(DoCancelStockBox(s, b))
  {
    var t := DoCancelStockBox(s, b);
    var u := t.(packedBoxes := s.packedBoxes, packedItems := s.packedItems);
    var gone := Children(s.items, b);
    forall i | i in gone ensures s.items[i].distributor.None? { ShippedMeansDistributor(s, i); }
    assert Detached(s, u, gone);
    forall c | c in u.boxes ensures BoxRowOk(u, c) { EmptiedKeepsBox(s, u, b, c); }
    forall i | i in u.items ensures ItemRowOk(u, i) { DetachedItemFrame(s, u, gone, i); }
    DetachedKeeps(s, u);
    PackedKeeps(u, t.packedBoxes, t.packedItems);
  }

  // The rest of a box an item is taken from.
  lemma RecountedBoxOk(s: State, t: State, i: Id, b: Id)
    requires Inv(s) && i in s.items && s.items[i].box == Some(b) && b in s.boxes
    requires Detached(s, t, {i}) && s.boxes[b].distributor.None?
    requires Children(t.items, b) != {}
    requires t.boxes[b] == s.boxes[b].(itemCount := |Children(t.items, b)|, confirmedAt := None, confirmedBy := None)
    ensures BoxRowOk(t, b)
  {
    assert BoxRowOk(s, b);
    assert Children(t.items, b) == Children(s.items, b) - {i};
  }

  // What WithoutReceipt does to the parent box.
  ghost predicate ParentUpdated(s: State, t: State, i: Id) {
    && i in s.items && Detached(s, t, {i}) && s.items[i].distributor.None?
    && (forall b :: b in s.boxes && s.items[i].box != Some(b) ==> t.boxes[b] == s.boxes[b])
    && forall b :: b in s.boxes && s.items[i].box == Some(b) ==>
         && s.boxes[b].distributor.None?
         && t.boxes[b] == if Children(t.items, b) == {} then ClearedBox(s.products, s.boxes[b])
                          else s.boxes[b].(itemCount := |Children(t.items, b)|, confirmedAt := None, confirmedBy := None)
  }

  lemma WithoutReceiptKeepsBox(s: State, t: State, i: Id, b: Id)
    requires Inv(s) && ParentUpdated(s, t, i) && b in s.boxes
    ensures BoxRowOk(t, b)
  {
    if s.items[i].box != Some(b) {
      DetachedBoxFrame(s, t, {i}, b);
    } else if Children(t.items, b) == {} {
      ClearedBoxOk(s, t, b);
    } else {
      RecountedBoxOk(s, t, i, b);
    }
  }

  lemma WithoutReceiptKeepsItem(s: State, t: State, i: Id, j: Id)
    requires Inv(s) && ParentUpdated(s, t, i) && j in s.items
    ensures ItemRowOk(t, j)
  {
    if j != i && s.items[j].box.Some? { assert j in Children(t.items, s.items[j].box.value); }
    DetachedItemFrame(s, t, {i}, j);
  }

  lemma WithoutReceiptUpdates(s: State, i: Id)
    requires Inv(s) && i in s.items && !HasShipment(s, i)
    ensures ParentUpdated(s, WithoutReceipt(s, i).(packedBoxes := s.packedBoxes, packedItems := s.packedItems), i)
  {
    ShippedMeansDistributor(s, i);
    if s.items[i].box.Some? { OpenBoxHasNoDistributor(s, i); }
  }

  lemma WithoutReceiptKeeps(s: State, i: Id)
    requires Inv(s) && i in s.items && !HasShipment(s, i)
    ensures Inv(WithoutReceipt(s, i))
  {
    var t := WithoutReceipt(s, i);
    var u := t.(packedBoxes := s.packedBoxes, packedItems := s.packedItems);
    WithoutReceiptUpdates(s, i);
    forall b | b in u.boxes ensures BoxRowOk(u, b) && u.boxes[b].distributor == s.boxes[b].distributor {
      WithoutReceiptKeepsBox(s, u, i, b);
    }
    forall j | j in u.items ensures ItemRowOk(u, j) { WithoutReceiptKeepsItem(s, u, i, j); }
    DetachedKeeps(s, u);
    PackedKeeps(u, t.packedBoxes, t.packedItems);
  }
}
