// Shipping and cancelling a shipment keep the invariant, and so does every
// request; with it every run from the empty database.
module PackingShippingPreserved {
  import opened Wrappers
  import opened PackingTables
  import opened PackingHandlers
  import opened PackingInvariant
  import opened PackingPreserved
  import opened PackingReceiptPreserved

  /******* Records before and after *******/

  // A new record leaves the older ones of other items and boxes as they were.
  lemma RecordAdded(shipments: map<Id, Shipment>, n: Id, row: Shipment, i: Id, b: Id)
    requires n !in shipments
    ensures row.item != Some(i) ==> (HasOwnRow(shipments[n := row], i) <==> HasOwnRow(shipments, i))
    ensures row.item == Some(i) ==> HasOwnRow(shipments[n := row], i)
    ensures HasWholeBoxRow(shipments, b) ==> HasWholeBoxRow(shipments[n := row], b)
    ensures row.item.None? && row.box == Some(b) ==> HasWholeBoxRow(shipments[n := row], b)
  {
    var after := shipments[n := row];
    if HasOwnRow(shipments, i) {
      var r :| r in shipments && OwnRow(shipments, r, i);
      assert OwnRow(after, r, i);
    }
    if HasOwnRow(after, i) {
      var r :| r in after && OwnRow(after, r, i);
      assert r == n || OwnRow(shipments, r, i);
    }
    if HasWholeBoxRow(shipments, b) {
      var r :| r in shipments && WholeBoxRow(shipments, r, b);
      assert WholeBoxRow(after, r, b);
    }
    if row.item == Some(i) { assert OwnRow(after, n, i); }
    if row.item.None? && row.box == Some(b) { assert WholeBoxRow(after, n, b); }
  }

  /******* Shipping a whole box *******/

  lemma ShipBoxKeepsBox(s: State, t: State, b: Id, distributorBrand: Option<Id>, distributor: Id, now: nat, c: Id)
    requires Inv(s) && CanShipBox(s, b, distributorBrand) && t == DoShipBox(s, b, distributor, now) && c in s.boxes
    ensures BoxRowOk(t, c)
  {
    assert BoxRowOk(s, c);
    RecordAdded(s.shipments, s.nextShipment, Shipment(Some(b), None, distributor), 0, c);
    assert Children(t.items, c) == Children(s.items, c);
    if c != b { BoxFrame(s, t, c); }
  }

  lemma ShipBoxKeepsItem(s: State, t: State, b: Id, distributorBrand: Option<Id>, distributor: Id, now: nat, i: Id)
    requires Inv(s) && CanShipBox(s, b, distributorBrand) && t == DoShipBox(s, b, distributor, now) && i in s.items
    ensures ItemRowOk(t, i)
  {
    assert ItemRowOk(s, i);
    RecordAdded(s.shipments, s.nextShipment, Shipment(Some(b), None, distributor), i, b);
    if s.items[i].box == Some(b) {
      assert i in Children(s.items, b);
    } else {
      ItemFrame(s, t, i);
    }
  }

  lemma ShipBoxKeepsRow(s: State, t: State, b: Id, distributorBrand: Option<Id>, distributor: Id, now: nat, r: Id)
    requires Inv(s) && CanShipBox(s, b, distributorBrand) && t == DoShipBox(s, b, distributor, now) && r in t.shipments
    ensures ShipmentRowOk(t, r)
  {
    if r != s.nextShipment {
      assert ShipmentRowOk(s, r);
      assert s.shipments[r].box != Some(b);
      ShipmentFrame(s, t, r);
    }
  }

  lemma ShipBoxKeeps(s: State, b: Id, distributorBrand: Option<Id>, distributor: Id, now: nat)
    requires Inv(s) && CanShipBox(s, b, distributorBrand)
    ensures Inv(DoShipBox(s, b, distributor, now))
  {
    var t := DoShipBox(s, b, distributor, now);
    forall c | c in t.boxes ensures BoxRowOk(t, c) { ShipBoxKeepsBox(s, t, b, distributorBrand, distributor, now, c); }
    forall i | i in t.items ensures ItemRowOk(t, i) { ShipBoxKeepsItem(s, t, b, distributorBrand, distributor, now, i); }
    forall r | r in t.shipments ensures ShipmentRowOk(t, r) { ShipBoxKeepsRow(s, t, b, distributorBrand, distributor, now, r); }
    ShipBoxUnique(s, b, distributor);
  }

  lemma ShipBoxUnique(s: State, b: Id, distributor: Id)
    requires Inv(s) && !HasBoxShipment(s.shipments, b)
    ensures RowsUnique(s.shipments[s.nextShipment := Shipment(Some(b), None, distributor)])
  {
    var after := s.shipments[s.nextShipment := Shipment(Some(b), None, distributor)];
    forall i, r, q | OwnRow(after, r, i) && OwnRow(after, q, i) ensures r == q {
      assert OwnRow(s.shipments, r, i) && OwnRow(s.shipments, q, i);
    }
    forall c, r, q | WholeBoxRow(after, r, c) && WholeBoxRow(after, q, c) ensures r == q {
      if c != b { assert WholeBoxRow(s.shipments, r, c) && WholeBoxRow(s.shipments, q, c); }
    }
  }

  /******* Shipping one item *******/

  lemma ShipItemKeepsBox(s: State, t: State, i: Id, distributorBrand: Option<Id>, distributor: Id, now: nat, c: Id)
    requires Inv(s) && CanShipItem(s, i, distributorBrand) && t == DoShipItem(s, i, distributor, now) && c in s.boxes
    ensures BoxRowOk(t, c)
  {
    assert BoxRowOk(s, c);
    RecordAdded(s.shipments, s.nextShipment, Shipment(s.items[i].box, Some(i), distributor), i, c);
    assert Children(t.items, c) == Children(s.items, c);
    ShippedMeansDistributor(s, i);
    if s.items[i].box == Some(c) { OpenBoxHasNoDistributor(s, i); }
  }

  lemma ShipItemKeepsItem(s: State, t: State, i: Id, distributorBrand: Option<Id>, distributor: Id, now: nat, j: Id)
    requires Inv(s) && CanShipItem(s, i, distributorBrand) && t == DoShipItem(s, i, distributor, now) && j in s.items
    ensures ItemRowOk(t, j)
  {
    assert ItemRowOk(s, j);
    RecordAdded(s.shipments, s.nextShipment, Shipment(s.items[i].box, Some(i), distributor), j, 0);
    if j != i {
      ItemFrame(s, t, j);
    } else if s.items[i].box.Some? {
      OpenBoxHasNoDistributor(s, i);
    }
  }

  lemma ShipItemKeeps(s: State, i: Id, distributorBrand: Option<Id>, distributor: Id, now: nat)
    requires Inv(s) && CanShipItem(s, i, distributorBrand)
    ensures Inv(DoShipItem(s, i, distributor, now))
  {
    var t := DoShipItem(s, i, distributor, now);
    ShippedMeansDistributor(s, i);
    forall c | c in t.boxes ensures BoxRowOk(t, c) { ShipItemKeepsBox(s, t, i, distributorBrand, distributor, now, c); }
    forall j | j in t.items ensures ItemRowOk(t, j) { ShipItemKeepsItem(s, t, i, distributorBrand, distributor, now, j); }
    forall r | r in t.shipments ensures ShipmentRowOk(t, r) {
      if r != s.nextShipment {
        assert ShipmentRowOk(s, r);
        ShipmentFrame(s, t, r);
      }
    }
    forall k, r, q | OwnRow(t.shipments, r, k) && OwnRow(t.shipments, q, k) ensures r == q {
      if k != i {
        assert OwnRow(s.shipments, r, k) && OwnRow(s.shipments, q, k);
      } else {
        assert !OwnRow(s.shipments, r, i) && !OwnRow(s.shipments, q, i);
      }
    }
    forall c, r, q | WholeBoxRow(t.shipments, r, c) && WholeBoxRow(t.shipments, q, c) ensures r == q {
      assert WholeBoxRow(s.shipments, r, c) && WholeBoxRow(s.shipments, q, c);
    }
  }

  /******* Cancelling *******/

  lemma CancelShipBoxKeepsBox(s: State, t: State, b: Id, c: Id)
    requires Inv(s) && CanCancelShipBox(s, b) && t == DoCancelShipBox(s, b) && c in s.boxes
    ensures BoxRowOk(t, c)
  {
    assert BoxRowOk(s, c);
    assert Children(t.items, c) == Children(s.items, c);
    if c != b {
      if HasWholeBoxRow(s.shipments, c) {
        var r :| r in s.shipments && WholeBoxRow(s.shipments, r, c);
        assert WholeBoxRow(t.shipments, r, c);
      }
      BoxFrame(s, t, c);
    }
  }

  lemma CancelShipBoxKeepsItem(s: State, t: State, b: Id, i: Id)
    requires Inv(s) && CanCancelShipBox(s, b) && t == DoCancelShipBox(s, b) && i in s.items
    ensures ItemRowOk(t, i)
  {
    assert ItemRowOk(s, i);
    if s.items[i].box != Some(b) {
      if HasOwnRow(s.shipments, i) {
        var r :| r in s.shipments && OwnRow(s.shipments, r, i);
        assert ShipmentRowOk(s, r);
        assert OwnRow(t.shipments, r, i);
      }
      if HasOwnRow(t.shipments, i) {
        var r :| r in t.shipments && OwnRow(t.shipments, r, i);
        assert OwnRow(s.shipments, r, i);
      }
      ItemFrame(s, t, i);
    }
  }

  lemma CancelShipBoxKeepsRow(s: State, t: State, b: Id, r: Id)
    requires Inv(s) && CanCancelShipBox(s, b) && t == DoCancelShipBox(s, b) && r in t.shipments
    ensures ShipmentRowOk(t, r)
  {
    assert ShipmentRowOk(s, r);
    ShipmentFrame(s, t, r);
  }

  lemma FewerRowsUnique(shipments: map<Id, Shipment>, fewer: map<Id, Shipment>)
    requires RowsUnique(shipments)
    requires forall r :: r in fewer ==> r in shipments && fewer[r] == shipments[r]
    ensures RowsUnique(fewer)
  {
    forall i, r, q | OwnRow(fewer, r, i) && OwnRow(fewer, q, i) ensures r == q {
      assert OwnRow(shipments, r, i) && OwnRow(shipments, q, i);
    }
    forall b, r, q | WholeBoxRow(fewer, r, b) && WholeBoxRow(fewer, q, b) ensures r == q {
      assert WholeBoxRow(shipments, r, b) && WholeBoxRow(shipments, q, b);
    }
  }

  lemma CancelShipBoxKeeps(s: State, b: Id)
    requires Inv(s) && CanCancelShipBox(s, b)
    ensures Inv(DoCancelShipBox(s, b))
  {
    var t := DoCancelShipBox(s, b);
    forall c | c in t.boxes ensures BoxRowOk(t, c) { CancelShipBoxKeepsBox(s, t, b, c); }
    forall i | i in t.items ensures ItemRowOk(t, i) { CancelShipBoxKeepsItem(s, t, b, i); }
    forall r | r in t.shipments ensures ShipmentRowOk(t, r) { CancelShipBoxKeepsRow(s, t, b, r); }
    FewerRowsUnique(s.shipments, t.shipments);
  }

  // A cancellable item went out on a row of its own.
  lemma CancelledItemHasOwnRow(s: State, i: Id)
    requires Inv(s) && CanCancelShipItem(s, i)
    ensures s.items[i].distributor.Some? && HasOwnRow(s.shipments, i) && !InShippedBox(s, i)
  {
    ShippedMeansDistributor(s, i);
    assert ItemRowOk(s, i);
    if s.items[i].box.Some? { assert BoxRowOk(s, s.items[i].box.value); }
  }

  lemma CancelShipItemKeepsBox(s: State, t: State, i: Id, c: Id)
    requires Inv(s) && CanCancelShipItem(s, i) && t == DoCancelShipItem(s, i) && c in s.boxes
    ensures BoxRowOk(t, c)
  {
    assert BoxRowOk(s, c);
    assert Children(t.items, c) == Children(s.items, c);
    CancelledItemHasOwnRow(s, i);
    if HasWholeBoxRow(s.shipments, c) {
      var r :| r in s.shipments && WholeBoxRow(s.shipments, r, c);
      assert WholeBoxRow(t.shipments, r, c);
    }
  }

  lemma CancelShipItemKeepsItem(s: State, t: State, i: Id, j: Id)
    requires Inv(s) && CanCancelShipItem(s, i) && t == DoCancelShipItem(s, i) && j in s.items
    ensures ItemRowOk(t, j)
  {
    assert ItemRowOk(s, j);
    if j != i {
      if HasOwnRow(s.shipments, j) {
        var r :| r in s.shipments && OwnRow(s.shipments, r, j);
        assert OwnRow(t.shipments, r, j);
      }
      if HasOwnRow(t.shipments, j) {
        var r :| r in t.shipments && OwnRow(t.shipments, r, j);
        assert OwnRow(s.shipments, r, j);
      }
      ItemFrame(s, t, j);
    }
  }

  lemma CancelShipItemKeeps(s: State, i: Id)
    requires Inv(s) && CanCancelShipItem(s, i)
    ensures Inv(DoCancelShipItem(s, i))
  {
    var t := DoCancelShipItem(s, i);
    forall c | c in t.boxes ensures BoxRowOk(t, c) { CancelShipItemKeepsBox(s, t, i, c); }
    forall j | j in t.items ensures ItemRowOk(t, j) { CancelShipItemKeepsItem(s, t, i, j); }
    forall r | r in t.shipments ensures ShipmentRowOk(t, r) {
      assert ShipmentRowOk(s, r);
      ShipmentFrame(s, t, r);
    }
    FewerRowsUnique(s.shipments, t.shipments);
  }

  /******* Every request *******/

  lemma ProductStepKeeps(s: State, c: Command)
    requires Inv(s) && (c.CreateProduct? || c.EditProduct? || c.DeleteProduct?)
    ensures Inv(HandleCode(s, c).state)
  {
    var t := HandleCode(s, c).state;
    BoundProductsStay(s, t.products, t.nextProduct);
  }

  lemma CodeStepKeeps(s: State, c: Command)
    requires Inv(s)
    ensures Inv(HandleCode(s, c).state)
  {
    hide Inv;
    if HandleCode(s, c).reply == Done {
      match c
      case CreateProduct(_, _, _) => ProductStepKeeps(s, c);
      case EditProduct(_, _, _) => ProductStepKeeps(s, c);
      case DeleteProduct(_) => ProductStepKeeps(s, c);
      case GenerateBox(p, brand, batch) => GenerateBoxKeeps(s, p, brand, batch);
      case GenerateItem(p, brand, batch) => GenerateItemKeeps(s, p, brand, batch);
      case InsertBox(p, brand, batch) => InsertBoxKeeps(s, p, Some(brand), batch);
      case InsertItem(p, brand, batch) => InsertItemKeeps(s, p, Some(brand), batch);
      case InvalidateBox(b) => InvalidateBoxKeeps(s, b);
      case InvalidateItem(i) => InvalidateItemKeeps(s, i);
      case DeleteBox(b) => DeleteBoxKeeps(s, b);
      case DeleteItem(i) => DeleteItemKeeps(s, i);
      case VerifyScan(i, now) => VerifyScanKeeps(s, i, now);
    }
  }

  lemma ReceiptStepKeeps(s: State, c: Command)
    requires Inv(s)
    ensures Inv(HandleReceipt(s, c).state)
  {
    var reply := HandleReceipt(s, c).reply;
    if reply == Repeated {
      PackedKeeps(s, s.packedBoxes + {c.box}, s.packedItems + {c.item});
    } else if reply == Done {
      match c
      case SetProduct(_, _, _, _, _, _, _) => SetProductKeeps(s, c);
      case Bind(b, codes, op, requested, authorised, now) => BindKeeps(s, b, codes, op, requested, authorised, now);
      case Scan(_, _, _, _, _, _, _) => ScanKeeps(s, c);
      case Confirm(_, _, _, _, _) => ConfirmKeeps(s, c);
      case ScanNobox(_, _, _, _, _, _, _) => ScanNoboxKeeps(s, c);
    }
  }

  lemma ReturnStepKeeps(s: State, c: Command)
    requires Inv(s)
    ensures Inv(HandleReturn(s, c).state)
  {
    if HandleReturn(s, c).reply == Done {
      match c
      case Unbind(i) => WithoutReceiptKeeps(s, i);
      case CancelStockBox(b, mode) => CancelStockBoxKeeps(s, b, mode);
      case CancelStockItem(i, _) => WithoutReceiptKeeps(s, i);
    }
  }

  lemma ShipmentStepKeeps(s: State, c: Command)
    requires Inv(s)
    ensures Inv(HandleShipment(s, c).state)
  {
    if HandleShipment(s, c).reply == Done {
      match c
      case ShipBox(b, distributor, brand, now) => ShipBoxKeeps(s, b, brand, distributor, now);
      case ShipItem(i, distributor, brand, now) => ShipItemKeeps(s, i, brand, distributor, now);
      case CancelShipBox(b) => CancelShipBoxKeeps(s, b);
      case CancelShipItem(i) => CancelShipItemKeeps(s, i);
    }
  }

  lemma StepKeeps(s: State, c: Command)
    requires Inv(s)
    ensures Inv(Handle(s, c).state)
  {
    CodeStepKeeps(s, c);
    ReceiptStepKeeps(s, c);
    ReturnStepKeeps(s, c);
    ShipmentStepKeeps(s, c);
  }

  function Run(s: State, commands: seq<Command>): State
    decreases |commands|
  {
    if commands == [] then s else Run(Handle(s, commands[0]).state, commands[1..])
  }

  lemma {:induction false} RunKeeps(s: State, commands: seq<Command>)
    requires Inv(s)
    ensures Inv(Run(s, commands))
    decreases |commands|
  {
    if commands != [] {
      StepKeeps(s, commands[0]);
      RunKeeps(Handle(s, commands[0]).state, commands[1..]);
    }
  }

  lemma ReachableInv(commands: seq<Command>)
    ensures Inv(Run(EMPTY_DATABASE, commands))
  {
    RunKeeps(EMPTY_DATABASE, commands);
  }
}
