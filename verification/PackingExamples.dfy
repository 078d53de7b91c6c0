// Runs from the empty database after which a request meets a trigger or an
// invalid box comes back.
module PackingExamples {
  import opened Wrappers
  import opened PackingTables
  import opened PackingHandlers
  import opened PackingInvariant
  import opened PackingShippingPreserved
  import opened PackingTheorems

  const MAKE_PRODUCT := CreateProduct(1, "", 2)
  const MAKE_BOX := GenerateBox(Some(0), 1, "A")
  const MAKE_ITEM := GenerateItem(None, 1, "")
  const FILL_BOX := Bind(0, {0}, Staff(9), Some(7), true, 5)

  const SAMPLE_PRODUCT := Product(Some(1), "", 2)
  const EMPTY_BOX := Box(Some(0), Some(1), "A", 0, 0, BoxInStock, None, None, None, None, None)
  const LOOSE_ITEM := Item(None, None, Some(1), "", InStock, None, None, None, None, None)
  const FILLED_BOX := EMPTY_BOX.(itemCount := 1, factory := Some(7))
  const BOUND_ITEM := Item(Some(0), Some(0), Some(1), "A", Scanned, None, None, Some(5), Some(7), None)

  const GENERATED := State(map[0 := SAMPLE_PRODUCT], map[0 := EMPTY_BOX], map[0 := LOOSE_ITEM], map[], {}, {}, 1, 1, 1, 0)
  const FILLED := GENERATED.(boxes := map[0 := FILLED_BOX], items := map[0 := BOUND_ITEM], packedBoxes := {0}, packedItems := {0})

  lemma RunNext(s: State, c: Command, rest: seq<Command>)
    ensures Run(s, [c] + rest) == Run(Handle(s, c).state, rest)
  {
    hide Handle;
    assert ([c] + rest)[1..] == rest;
  }

  lemma {:induction false} RunJoins(s: State, a: seq<Command>, b: seq<Command>)
    ensures Run(s, a + b) == Run(Run(s, a), b)
    decreases |a|
  {
    hide Handle;
    if a == [] {
      assert a + b == b;
    } else {
      assert (a + b)[1..] == a[1..] + b;
      RunJoins(Handle(s, a[0]).state, a[1..], b);
    }
  }

  lemma RunOne(s: State, c: Command)
    ensures Run(s, [c]) == Handle(s, c).state
  {
    RunNext(s, c, []);
    hide Handle;
    assert [c] + [] == [c];
  }

  lemma CodeRequest(s: State, c: Command)
    requires !IsReceipt(c) && !IsReturn(c) && !IsShipment(c)
    ensures Handle(s, c) == HandleCode(s, c)
  {
    hide HandleCode;
  }

  const BARE_PRODUCT := EMPTY_DATABASE.(products := map[0 := SAMPLE_PRODUCT], nextProduct := 1)
  const BOXED_PRODUCT := BARE_PRODUCT.(boxes := map[0 := EMPTY_BOX], nextBox := 1)

  lemma FirstBox()
    ensures Run(EMPTY_DATABASE, [MAKE_PRODUCT, MAKE_BOX]) == BOXED_PRODUCT
  {
    CodeRequest(EMPTY_DATABASE, MAKE_PRODUCT);
    CodeRequest(BARE_PRODUCT, MAKE_BOX);
    RunOne(EMPTY_DATABASE, MAKE_PRODUCT);
    RunOne(BARE_PRODUCT, MAKE_BOX);
    RunJoins(EMPTY_DATABASE, [MAKE_PRODUCT], [MAKE_BOX]);
    hide Run, Handle;
    assert [MAKE_PRODUCT, MAKE_BOX] == [MAKE_PRODUCT] + [MAKE_BOX];
    assert HandleCode(EMPTY_DATABASE, MAKE_PRODUCT).state == BARE_PRODUCT;
    assert HandleCode(BARE_PRODUCT, MAKE_BOX).state == BOXED_PRODUCT;
  }

  lemma FilledStep()
    ensures HandleReceipt(GENERATED, FILL_BOX) == Outcome(FILLED, Done)
  {
    assert BindableItem(GENERATED, 0, 0, 7);
    assert Children(GENERATED.items, 0) == {};
    assert NewChildren(GENERATED.items, {0}) == {0};
    assert CanBind(GENERATED, 0, {0}, Staff(9), Some(7), true);
    var t := DoBind(GENERATED, 0, {0}, 7, 5);
    assert t.items == map[0 := BOUND_ITEM];
    assert Children(t.items, 0) == {0};
  }

  lemma FillBoxStep()
    ensures Handle(GENERATED, FILL_BOX) == Outcome(FILLED, Done)
  {
    FilledStep();
    hide HandleReceipt;
  }

  // A box with one item in it.
  lemma FilledRun()
    ensures Run(EMPTY_DATABASE, [MAKE_PRODUCT, MAKE_BOX, MAKE_ITEM, FILL_BOX]) == FILLED && Inv(FILLED)
  {
    FirstBox();
    CodeRequest(BOXED_PRODUCT, MAKE_ITEM);
    FillBoxStep();
    RunOne(BOXED_PRODUCT, MAKE_ITEM);
    RunOne(GENERATED, FILL_BOX);
    RunJoins(EMPTY_DATABASE, [MAKE_PRODUCT, MAKE_BOX], [MAKE_ITEM]);
    RunJoins(EMPTY_DATABASE, [MAKE_PRODUCT, MAKE_BOX] + [MAKE_ITEM], [FILL_BOX]);
    ReachableInv([MAKE_PRODUCT, MAKE_BOX, MAKE_ITEM, FILL_BOX]);
    ItemMade();
    hide Run, Handle, Inv, HandleCode;
    assert [MAKE_PRODUCT, MAKE_BOX, MAKE_ITEM, FILL_BOX] == [MAKE_PRODUCT, MAKE_BOX] + [MAKE_ITEM] + [FILL_BOX];
  }

  lemma ItemMade()
    ensures HandleCode(BOXED_PRODUCT, MAKE_ITEM).state == GENERATED
  {
  }

  // Set-product passes its guards and is aborted.
  lemma BatchChangeAborts()
    ensures var s := Run(EMPTY_DATABASE, [MAKE_PRODUCT, MAKE_BOX, MAKE_ITEM, FILL_BOX]);
      Handle(s, SetProduct(0, 0, Staff(9), None, 0, "B", true)) == Outcome(s, Conflict)
  {
    FilledRun();
    hide Run, Inv;
    FilledChildren();
    BatchChangeStep();
  }

  lemma FilledChildren()
    ensures Children(FILLED.items, 0) == {0}
  {
    assert 0 in Children(FILLED.items, 0);
  }

  lemma BatchChangeStep()
    requires Inv(FILLED) && Children(FILLED.items, 0) == {0}
    ensures Handle(FILLED, SetProduct(0, 0, Staff(9), None, 0, "B", true)) == Outcome(FILLED, Conflict)
  {
    assert CanSetProduct(FILLED, 0, 0, Staff(9), None, 0, "B", true);
    SetProductTrigger(FILLED, 0, 0, Staff(9), None, 0, "B", true);
  }

  // The box is invalidated and comes back in stock with its last item unbound.
  lemma InvalidBoxCanRevive()
    ensures var s := Run(EMPTY_DATABASE, [MAKE_PRODUCT, MAKE_BOX, MAKE_ITEM, FILL_BOX, InvalidateBox(0)]);
      && 0 in s.boxes && s.boxes[0].status == BoxInvalid
      && var t := Handle(s, Unbind(0)); t.reply == Done && 0 in t.state.boxes && t.state.boxes[0].status == BoxInStock
  {
    FilledRun();
    var fill := [MAKE_PRODUCT, MAKE_BOX, MAKE_ITEM, FILL_BOX];
    RunJoins(EMPTY_DATABASE, fill, [InvalidateBox(0)]);
    RunOne(FILLED, InvalidateBox(0));
    CodeRequest(FILLED, InvalidateBox(0));
    assert fill + [InvalidateBox(0)] == [MAKE_PRODUCT, MAKE_BOX, MAKE_ITEM, FILL_BOX, InvalidateBox(0)];
    InvalidUnbound();
    hide Run, Inv, Handle;
    assert Handle(HandleCode(FILLED, InvalidateBox(0)).state, Unbind(0)) == HandleReturn(HandleCode(FILLED, InvalidateBox(0)).state, Unbind(0)) by {
      ReturnRequest(HandleCode(FILLED, InvalidateBox(0)).state, Unbind(0));
    }
  }

  lemma ReturnRequest(s: State, c: Command)
    requires IsReturn(c)
    ensures Handle(s, c) == HandleReturn(s, c)
  {
    hide HandleReturn, HandleReceipt;
  }

  lemma InvalidUnbound()
    requires Inv(FILLED)
    ensures var s := HandleCode(FILLED, InvalidateBox(0)).state;
      && 0 in s.boxes && s.boxes[0].status == BoxInvalid
      && var t := HandleReturn(s, Unbind(0)); t.reply == Done && 0 in t.state.boxes && t.state.boxes[0].status == BoxInStock
  {
    CodeStepKeeps(FILLED, InvalidateBox(0));
    var s := HandleCode(FILLED, InvalidateBox(0)).state;
    assert CanUnbind(s, 0);
    assert Children(s.items, 0) == {0};
    ReturnRevivesBox(s, Unbind(0), 0);
  }

  const UNBOXED := BARE_PRODUCT.(nextBox := 1)
  const UNMADE := EMPTY_DATABASE.(nextProduct := 1, nextBox := 1)

  lemma BoxDeleted()
    ensures Handle(BOXED_PRODUCT, DeleteBox(0)).state == UNBOXED
  {
    CodeRequest(BOXED_PRODUCT, DeleteBox(0));
    hide Handle;
    assert CanDeleteBox(BOXED_PRODUCT, 0);
    assert BOXED_PRODUCT.boxes - {0} == UNBOXED.boxes;
  }

  lemma ProductDeleted()
    ensures Handle(UNBOXED, DeleteProduct(0)).state == UNMADE
  {
    CodeRequest(UNBOXED, DeleteProduct(0));
    hide Handle;
    assert CanDeleteProduct(UNBOXED, 0);
    assert UNBOXED.products - {0} == UNMADE.products;
  }

  lemma InsertAborts()
    ensures Handle(UNMADE, InsertBox(Some(0), 1, "A")) == Outcome(UNMADE, Conflict)
  {
    CodeRequest(UNMADE, InsertBox(Some(0), 1, "A"));
    hide Handle;
  }

  // Two boxes are asked for; while the first is being drawn it is deleted and
  // its product as well, and the insert of the second is aborted.
  lemma GenerationCanAbort()
    ensures var s := Run(EMPTY_DATABASE, [MAKE_PRODUCT, MAKE_BOX, DeleteBox(0), DeleteProduct(0)]);
      Handle(s, InsertBox(Some(0), 1, "A")) == Outcome(s, Conflict)
  {
    hide Run, Handle;
    FirstBox();
    BoxDeleted();
    ProductDeleted();
    InsertAborts();
    RunJoins(EMPTY_DATABASE, [MAKE_PRODUCT, MAKE_BOX], [DeleteBox(0)]);
    RunJoins(EMPTY_DATABASE, [MAKE_PRODUCT, MAKE_BOX] + [DeleteBox(0)], [DeleteProduct(0)]);
    RunOne(BOXED_PRODUCT, DeleteBox(0));
    RunOne(UNBOXED, DeleteProduct(0));
    assert [MAKE_PRODUCT, MAKE_BOX, DeleteBox(0), DeleteProduct(0)] == [MAKE_PRODUCT, MAKE_BOX] + [DeleteBox(0)] + [DeleteProduct(0)];
  }
}
