// What holds of the tables after every run of requests from an empty database.
module PackingInvariant {
  import opened Wrappers
  import opened PackingTables

  ghost predicate BoxRowOk(s: State, b: Id)
    requires b in s.boxes
  {
    var box, children := s.boxes[b], Children(s.items, b);
    && box.brand.Some?
    && ProductMatches(s.products, box.product, box.brand)
    && box.itemCount == |children|
    && (box.boxSize > 0 ==> box.itemCount <= box.boxSize)
    && (box.confirmedAt.Some? ==> box.product.Some? && children != {})
    && (box.status == BoxShipped ==> box.distributor.Some?)
    && (box.status == BoxInStock ==> box.distributor.None?)
    && (box.shippedAt.Some? <==> box.distributor.Some?)
    && (box.distributor.Some? ==>
          && box.confirmedAt.Some?
          && (box.boxSize > 0 ==> box.itemCount == box.boxSize)
          && HasWholeBoxRow(s.shipments, b)
          && forall i :: i in s.items && s.items[i].box == Some(b) ==> s.items[i].distributor == box.distributor)
  }

  ghost predicate ItemRowOk(s: State, i: Id)
    requires i in s.items
  {
    var item := s.items[i];
    && item.brand.Some?
    && ProductMatches(s.products, item.product, item.brand)
    && (item.box.Some? ==>
          && item.box.value in s.boxes
          && Agree(s.boxes[item.box.value], item)
          && item.boxedAt.Some?
          && item.factory == s.boxes[item.box.value].factory)
    && (item.boxedAt.Some? ==> item.product.Some? && item.factory.Some?)
    && (item.status == InStock ==> item.boxedAt.None?)
    && (item.status == Scanned || item.status == Shipped ==> item.boxedAt.Some?)
    && (item.status == Shipped ==> item.distributor.Some?)
    && (item.status == InStock || item.status == Scanned ==> item.distributor.None?)
    && (item.distributor.Some? ==> item.boxedAt.Some?)
    && (item.shippedAt.Some? <==> item.distributor.Some?)
    && (item.distributor.Some? ==> (HasOwnRow(s.shipments, i) <==> !InShippedBox(s, i)))
  }

  // The item is in a box that carries a distributor.
  ghost predicate InShippedBox(s: State, i: Id)
    requires i in s.items
  {
    s.items[i].box.Some? && s.items[i].box.value in s.boxes && s.boxes[s.items[i].box.value].distributor.Some?
  }

  ghost predicate ShipmentRowOk(s: State, r: Id)
    requires r in s.shipments
  {
    var row := s.shipments[r];
    if row.item.Some? then
      row.item.value in s.items && s.items[row.item.value].box == row.box &&
      s.items[row.item.value].distributor == Some(row.distributor)
    else
      row.box.Some? && row.box.value in s.boxes && s.boxes[row.box.value].distributor == Some(row.distributor)
  }

  // No item has two shipment rows of its own and no box two whole-box rows.
  ghost predicate RowsUnique(shipments: map<Id, Shipment>) {
    && (forall i, r, q :: OwnRow(shipments, r, i) && OwnRow(shipments, q, i) ==> r == q)
    && (forall b, r, q :: WholeBoxRow(shipments, r, b) && WholeBoxRow(shipments, q, b) ==> r == q)
  }

  ghost predicate KeysOk(s: State) {
    && (forall p :: p in s.products ==> p < s.nextProduct && s.products[p].brand.Some?)
    && (forall b :: b in s.boxes ==> b < s.nextBox)
    && (forall i :: i in s.items ==> i < s.nextItem)
    && (forall r :: r in s.shipments ==> r < s.nextShipment)
    && s.packedBoxes <= s.boxes.Keys
    && s.packedItems <= s.items.Keys
  }

  ghost predicate BoxesOk(s: State) {
    forall b {:trigger BoxRowOk(s, b)} :: b in s.boxes ==> BoxRowOk(s, b)
  }

  ghost predicate ItemsOk(s: State) {
    forall i {:trigger ItemRowOk(s, i)} :: i in s.items ==> ItemRowOk(s, i)
  }

  ghost predicate ShipmentsOk(s: State) {
    forall r {:trigger ShipmentRowOk(s, r)} :: r in s.shipments ==> ShipmentRowOk(s, r)
  }

  ghost predicate Inv(s: State) {
    KeysOk(s) && BoxesOk(s) && ItemsOk(s) && ShipmentsOk(s) && RowsUnique(s.shipments)
  }

  /******* Rows a request leaves alone *******/

  lemma BoxFrame(s: State, t: State, b: Id)
    requires b in s.boxes && BoxRowOk(s, b) && b in t.boxes && t.boxes[b] == s.boxes[b]
    requires ProductMatches(t.products, t.boxes[b].product, t.boxes[b].brand)
    requires forall i :: i in s.items && s.items[i].box == Some(b) ==> i in t.items && t.items[i].box == Some(b) && t.items[i].distributor == s.items[i].distributor
    requires forall i :: i in t.items && t.items[i].box == Some(b) ==> i in s.items && s.items[i].box == Some(b)
    requires HasWholeBoxRow(s.shipments, b) ==> HasWholeBoxRow(t.shipments, b)
    ensures BoxRowOk(t, b)
  {
    assert Children(t.items, b) == Children(s.items, b);
  }

  lemma ItemFrame(s: State, t: State, i: Id)
    requires i in s.items && ItemRowOk(s, i) && i in t.items && t.items[i] == s.items[i]
    requires ProductMatches(t.products, t.items[i].product, t.items[i].brand)
    requires s.items[i].box.Some? && s.items[i].box.value in s.boxes ==>
               var b := s.items[i].box.value;
               && b in t.boxes && t.boxes[b].product == s.boxes[b].product && t.boxes[b].brand == s.boxes[b].brand
               && t.boxes[b].batch == s.boxes[b].batch && t.boxes[b].factory == s.boxes[b].factory
               && (t.boxes[b].distributor.Some? <==> s.boxes[b].distributor.Some?)
    requires HasOwnRow(s.shipments, i) <==> HasOwnRow(t.shipments, i)
    ensures ItemRowOk(t, i)
  {
  }

  lemma ShipmentFrame(s: State, t: State, r: Id)
    requires r in s.shipments && ShipmentRowOk(s, r) && r in t.shipments && t.shipments[r] == s.shipments[r]
    requires var row := s.shipments[r];
      if row.item.Some? then
        row.item.value in s.items ==>
          row.item.value in t.items && t.items[row.item.value].box == s.items[row.item.value].box &&
          t.items[row.item.value].distributor == s.items[row.item.value].distributor
      else row.box.Some? && row.box.value in s.boxes ==>
        row.box.value in t.boxes && t.boxes[row.box.value].distributor == s.boxes[row.box.value].distributor
    ensures ShipmentRowOk(t, r)
  {
  }
}
