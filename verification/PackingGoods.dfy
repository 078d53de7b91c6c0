// Whose goods go to whom: over whole runs nothing is with a distributor of
// another brand.
module PackingGoods {
  import opened Wrappers
  import opened PackingTables
  import opened PackingHandlers
  import opened PackingInvariant
  import opened PackingShippingPreserved
  import opened PackingTheorems
  import opened PackingAnswers
  import opened PackingEffects

  // An item comes to a distributor only by a request that ships it there and
  // names the item's own brand as the distributor's.
  predicate ShipsItem(s: State, c: Command, i: Id, d: Id)
    requires i in s.items
  {
    || (c.ShipBox? && s.items[i].box == Some(c.box) && c.distributor == d && c.distributorBrand == s.items[i].brand)
    || (c.ShipItem? && c.item == i && c.distributor == d && c.distributorBrand == s.items[i].brand)
  }

  lemma ShippedByOwnBrand(s: State, c: Command, i: Id)
    requires Inv(s) && i in s.items && i in Handle(s, c).state.items
    ensures var d := Handle(s, c).state.items[i].distributor;
      d.Some? && d != s.items[i].distributor ==> ShipsItem(s, c, i, d.value)
  {
    NotDoneLeavesAlone(s, c);
    if Handle(s, c).reply == Done {
      ItemEffects(s, c, i);
      DoneIffAccepted(s, c);
      ItemFacts(s, i);
      hide Inv, Handle, PlaceLaw, StatusLaw, FactoryLaw, AcceptsReceipt, AcceptsReturn, AcceptsCode;
    }
  }

  lemma BoxShippedByOwnBrand(s: State, c: Command, b: Id)
    requires Inv(s) && b in s.boxes && b in Handle(s, c).state.boxes
    ensures var d := Handle(s, c).state.boxes[b].distributor;
      d.Some? && d != s.boxes[b].distributor ==>
        c.ShipBox? && c.box == b && c.distributor == d.value && c.distributorBrand == s.boxes[b].brand
  {
    NotDoneLeavesAlone(s, c);
    if Handle(s, c).reply == Done {
      BoxEffects(s, c, b);
      DoneIffAccepted(s, c);
      hide Inv, Handle, BoxContentLaw, BoxFactoryLaw, AcceptsReceipt, AcceptsReturn, AcceptsCode;
    }
  }

  // In every reachable state a box that ships, with all it holds, is of the
  // brand of its distributor.
  lemma ShipsOwnBrandOnly(commands: seq<Command>, b: Id, d: Id, brand: Option<Id>, now: nat)
    requires Handle(Run(EMPTY_DATABASE, commands), ShipBox(b, d, brand, now)).reply == Done
    ensures var s := Run(EMPTY_DATABASE, commands);
      && b in s.boxes && brand.Some? && brand == s.boxes[b].brand
      && forall i :: i in s.items && s.items[i].box == Some(b) ==> s.items[i].brand == brand
  {
    var s := Run(EMPTY_DATABASE, commands);
    ReachableInv(commands);
    hide Run, Handle;
    DoneIffAccepted(s, ShipBox(b, d, brand, now));
    BoxFacts(s, b);
    forall i | i in s.items && s.items[i].box == Some(b) ensures s.items[i].brand == brand { ItemFacts(s, i); }
  }

  lemma ShipsOwnItemOnly(commands: seq<Command>, i: Id, d: Id, brand: Option<Id>, now: nat)
    requires Handle(Run(EMPTY_DATABASE, commands), ShipItem(i, d, brand, now)).reply == Done
    ensures var s := Run(EMPTY_DATABASE, commands);
      && i in s.items && brand.Some? && brand == s.items[i].brand
      && (s.items[i].box.Some? ==> s.items[i].box.value in s.boxes && s.boxes[s.items[i].box.value].brand == brand)
  {
    var s := Run(EMPTY_DATABASE, commands);
    ReachableInv(commands);
    hide Run, Handle;
    DoneIffAccepted(s, ShipItem(i, d, brand, now));
    ItemFacts(s, i);
  }

  // A box that is confirmed holds as many items as its size says, or its
  // product's when it has none of its own.
  lemma ConfirmsFullBoxes(commands: seq<Command>, b: Id, op: Operator, requested: Option<Id>, authorised: bool, now: nat)
    requires Handle(Run(EMPTY_DATABASE, commands), Confirm(b, op, requested, authorised, now)).reply == Done
    ensures var s := Run(EMPTY_DATABASE, commands);
      && b in s.boxes && s.boxes[b].product.Some? && s.boxes[b].product.value in s.products
      && |Children(s.items, b)| == (if s.boxes[b].boxSize != 0 then s.boxes[b].boxSize else s.products[s.boxes[b].product.value].boxSize) > 0
  {
    var s := Run(EMPTY_DATABASE, commands);
    ReachableInv(commands);
    hide Run, Handle, Inv;
    DoneIffAccepted(s, Confirm(b, op, requested, authorised, now));
    BoxFacts(s, b);
  }

  // The brands that shipping requests read for their distributors.
  predicate BrandsAre(commands: seq<Command>, brandOf: Id -> Option<Id>) {
    forall k :: 0 <= k < |commands| && (commands[k].ShipBox? || commands[k].ShipItem?) ==>
      commands[k].distributorBrand == brandOf(commands[k].distributor)
  }

  predicate InOwnHands(s: State, brandOf: Id -> Option<Id>) {
    && (forall i :: i in s.items && s.items[i].distributor.Some? ==> brandOf(s.items[i].distributor.value) == s.items[i].brand)
    && (forall b :: b in s.boxes && s.boxes[b].distributor.Some? ==> brandOf(s.boxes[b].distributor.value) == s.boxes[b].brand)
  }

  lemma OwnHandsStep(s: State, c: Command, brandOf: Id -> Option<Id>)
    requires Inv(s) && InOwnHands(s, brandOf)
    requires c.ShipBox? || c.ShipItem? ==> c.distributorBrand == brandOf(c.distributor)
    ensures InOwnHands(Handle(s, c).state, brandOf)
  {
    var t := Handle(s, c).state;
    NotDoneLeavesAlone(s, c);
    hide Inv, Handle;
    forall i | i in t.items && t.items[i].distributor.Some? ensures brandOf(t.items[i].distributor.value) == t.items[i].brand {
      if i in s.items {
        ShippedByOwnBrand(s, c, i);
        BrandStays(s, c, i);
      } else {
        NewRowsAreFree(s, c);
      }
    }
    forall b | b in t.boxes && t.boxes[b].distributor.Some? ensures brandOf(t.boxes[b].distributor.value) == t.boxes[b].brand {
      if b in s.boxes {
        BoxShippedByOwnBrand(s, c, b);
        BoxKeepsBrand(s, c, b);
      } else {
        NewRowsAreFree(s, c);
      }
    }
  }

  lemma BrandStays(s: State, c: Command, i: Id)
    requires Inv(s) && i in s.items && i in Handle(s, c).state.items
    ensures Handle(s, c).state.items[i].brand == s.items[i].brand
  {
    ItemContinuesOrWasUnused(s, c, i);
    hide Inv, Handle;
  }

  lemma NewRowsAreFree(s: State, c: Command)
    requires Inv(s)
    ensures var t := Handle(s, c).state;
      && (forall i :: i in t.items && i !in s.items ==> t.items[i].distributor == None)
      && (forall b :: b in t.boxes && b !in s.boxes ==> t.boxes[b].distributor == None)
  {
    NotDoneLeavesAlone(s, c);
    if Handle(s, c).reply == Done { TableEffects(s, c); }
    hide Inv, Handle, ShipmentsLaw, RecordsLaw, ProductsLaw;
  }

  lemma {:induction false} OwnHandsRun(s: State, commands: seq<Command>, brandOf: Id -> Option<Id>)
    requires Inv(s) && InOwnHands(s, brandOf) && BrandsAre(commands, brandOf)
    ensures InOwnHands(Run(s, commands), brandOf)
    decreases |commands|
  {
    hide Inv, Handle, InOwnHands;
    if commands != [] {
      assert BrandsAre([commands[0]], brandOf) && BrandsAre(commands[1..], brandOf);
      StepKeeps(s, commands[0]);
      OwnHandsStep(s, commands[0], brandOf);
      OwnHandsRun(Handle(s, commands[0]).state, commands[1..], brandOf);
    }
  }

  // While distributors keep their brands, no run puts an item, a box or a
  // shipment row with a distributor of another brand.
  lemma GoodsStayInBrand(commands: seq<Command>, brandOf: Id -> Option<Id>)
    requires BrandsAre(commands, brandOf)
    ensures var s := Run(EMPTY_DATABASE, commands);
      && InOwnHands(s, brandOf)
      && forall r :: r in s.shipments ==> RowInBrand(s, r, brandOf)
  {
    assert InOwnHands(EMPTY_DATABASE, brandOf) && Inv(EMPTY_DATABASE);
    OwnHandsRun(EMPTY_DATABASE, commands, brandOf);
    ReachableInv(commands);
    var s := Run(EMPTY_DATABASE, commands);
    hide Run;
    forall r | r in s.shipments ensures RowInBrand(s, r, brandOf) { assert ShipmentRowOk(s, r); }
  }

  predicate RowInBrand(s: State, r: Id, brandOf: Id -> Option<Id>)
    requires r in s.shipments
  {
    var row := s.shipments[r];
    if row.item.Some? then row.item.value in s.items && brandOf(row.distributor) == s.items[row.item.value].brand
    else row.box.Some? && row.box.value in s.boxes && brandOf(row.distributor) == s.boxes[row.box.value].brand
  }
}
