/** What pricing, checkout and status changes keep, on one committed state and over serial runs. */
module OrderRules {
  import opened Wrappers
  import opened OrderNumbers
  import opened Orders

  // ----- Pricing -----

  /** The stated top-up is the least amount that makes delivery free. */
  lemma TopUpIsLeast(subtotal: int, extra: nat)
    ensures ShippingFeeFor(subtotal + extra) == 0 <==> extra >= AmountToFreeShipping(subtotal)
  {
  }

  function Without(lines: seq<Line>, p: PlantId): (r: seq<Line>)
    ensures |r| <= |lines|
    ensures Ids(r) == Ids(lines) - {p}
    ensures p in Ids(lines) ==> |r| < |lines|
  {
    if lines == [] then []
    else
      var init, last := lines[..|lines| - 1], lines[|lines| - 1];
      assert lines == init + [last];
      assert Ids(lines) == Ids(init) + {last.plantId};
      var r := Without(init, p);
      assert Ids(r + [last]) == Ids(r) + {last.plantId};
      if last.plantId == p then r else r + [last]
  }

  lemma {:induction false} WithoutRequested(lines: seq<Line>, p: PlantId, q: PlantId)
    ensures Requested(Without(lines, p), q) == if q == p then 0 else Requested(lines, q)
  {
    if lines != [] {
      var init, last := lines[..|lines| - 1], lines[|lines| - 1];
      WithoutRequested(init, p, q);
      if last.plantId != p {
        assert (Without(init, p) + [last])[..|Without(init, p)|] == Without(init, p);
      }
    }
  }

  /** A line costs its unit price times its quantity, which is nothing when it cannot be sold. */
  lemma LineTotal(plants: map<PlantId, Plant>, line: Line)
    ensures PriceLine(plants, line).lineTotal == UnitPrice(plants, line.plantId) * line.quantity
  {
  }

  /** The lines of one plant cost its unit price times its requested quantity. */
  lemma {:induction false} WithoutSubtotal(plants: map<PlantId, Plant>, lines: seq<Line>, p: PlantId)
    ensures Subtotal(plants, lines) == UnitPrice(plants, p) * Requested(lines, p) + Subtotal(plants, Without(lines, p))
  {
    hide PriceLine, UnitPrice;
    if lines != [] {
      var init, last := lines[..|lines| - 1], lines[|lines| - 1];
      WithoutSubtotal(plants, init, p);
      LineTotal(plants, last);
      if last.plantId == p {
        Distribute(UnitPrice(plants, p), Requested(init, p), last.quantity);
      } else {
        assert (Without(init, p) + [last])[..|Without(init, p)|] == Without(init, p);
      }
    }
  }

  lemma Distribute(a: int, x: int, y: int)
    ensures a * (x + y) == a * x + a * y
  {
  }

  /** The subtotal depends on the lines only through the quantity requested of each plant. */
  lemma {:induction false} SubtotalDependsOnTotals(plants: map<PlantId, Plant>, a: seq<Line>, b: seq<Line>)
    requires Ids(a) == Ids(b)
    requires forall p :: Requested(a, p) == Requested(b, p)
    ensures Subtotal(plants, a) == Subtotal(plants, b)
    decreases |a|
  {
    assert forall i :: 0 <= i < |b| ==> b[i].plantId in Ids(b);
    if a != [] {
      var p := a[0].plantId;
      assert p in Ids(a);
      WithoutSubtotal(plants, a, p);
      WithoutSubtotal(plants, b, p);
      forall q
        ensures Requested(Without(a, p), q) == Requested(Without(b, p), q)
      {
        WithoutRequested(a, p, q);
        WithoutRequested(b, p, q);
      }
      SubtotalDependsOnTotals(plants, Without(a, p), Without(b, p));
    }
  }

  predicate CanSell(plants: map<PlantId, Plant>, p: PlantId, quantity: int) {
    Sellable(plants, p) && plants[p].stock >= quantity
  }

  /** A checkout goes through exactly when every plant can be sold in the requested quantity. */
  lemma {:induction false} CheckMeaning(plants: map<PlantId, Plant>, lines: seq<Line>)
    ensures CheckError(plants, lines) == None <==>
            (forall p :: p in Ids(lines) ==> CanSell(plants, p, Requested(lines, p))) &&
            Priced(plants, lines).total <= MAX_TOTAL_AMOUNT
  {
    hide Priced, StockError, FirstSeen;
    if Ids(lines) <= plants.Keys {
      assert forall p :: p in FirstSeen(lines) ==> p in plants;
      StockErrorKind(plants, lines, FirstSeen(lines));
      assert forall i :: 0 <= i < |lines| ==> lines[i].plantId in Ids(lines);
    }
  }

  /** Permuting, splitting or merging lines changes neither the outcome, nor the amounts, nor the stock. */
  lemma {:induction false} OutcomeDependsOnTotals(db: Db, r1: Request, r2: Request, day: Day)
    requires Ids(r1.lines) == Ids(r2.lines)
    requires forall p :: Requested(r1.lines, p) == Requested(r2.lines, p)
    requires QuantitiesPositive(r1.lines) && QuantitiesPositive(r2.lines)
    ensures PlaceOrder(db, r1, day).Success? <==> PlaceOrder(db, r2, day).Success?
    ensures PlaceOrder(db, r1, day).Success? ==>
              var d1, d2 := PlaceOrder(db, r1, day).value, PlaceOrder(db, r2, day).value;
              var o1, o2 := d1.orders[|db.orders|], d2.orders[|db.orders|];
              d1.plants == d2.plants && o1.number == o2.number &&
              o1.subtotal == o2.subtotal && o1.shippingFee == o2.shippingFee && o1.total == o2.total
  {
    hide CheckError, NextNumber, Priced, Requested, Deducted, SnapshotName, PaymentReferenceFor;
    CheckMeaning(db.plants, r1.lines);
    CheckMeaning(db.plants, r2.lines);
    AmountsDependOnTotals(db.plants, r1.lines, r2.lines);
    StockDependsOnTotals(db.plants, r1.lines, r2.lines);
  }

  lemma {:induction false} AmountsDependOnTotals(plants: map<PlantId, Plant>, a: seq<Line>, b: seq<Line>)
    requires Ids(a) == Ids(b)
    requires forall p :: Requested(a, p) == Requested(b, p)
    ensures var p1, p2 := Priced(plants, a), Priced(plants, b);
            p1.subtotal == p2.subtotal && p1.shippingFee == p2.shippingFee && p1.total == p2.total
  {
    hide PriceLines, Subtotal, Requested, Sellable;
    SubtotalDependsOnTotals(plants, a, b);
    SellableLine(plants, a);
    SellableLine(plants, b);
  }

  lemma StockDependsOnTotals(plants: map<PlantId, Plant>, a: seq<Line>, b: seq<Line>)
    requires Ids(a) == Ids(b)
    requires forall p :: Requested(a, p) == Requested(b, p)
    ensures Deducted(plants, a) == Deducted(plants, b)
  {
    hide Requested;
  }

  lemma SellableLine(plants: map<PlantId, Plant>, lines: seq<Line>)
    ensures (exists i :: 0 <= i < |lines| && Sellable(plants, lines[i].plantId)) <==>
            exists p :: p in Ids(lines) && Sellable(plants, p)
  {
    if p :| p in Ids(lines) && Sellable(plants, p) {
      var i :| 0 <= i < |lines| && lines[i].plantId == p;
    }
    if i :| 0 <= i < |lines| && Sellable(plants, lines[i].plantId) {
      assert lines[i].plantId in Ids(lines);
    }
  }

  /** The first line of plant `p`. */
  function FirstLine(lines: seq<Line>, p: PlantId): (i: nat)
    requires p in Ids(lines)
    ensures i < |lines| && lines[i].plantId == p && forall j :: 0 <= j < i ==> lines[j].plantId != p
  {
    if lines[0].plantId == p then 0
    else
      assert lines == [lines[0]] + lines[1..];
      1 + FirstLine(lines[1..], p)
  }

  /** The plants are checked in the order of their first lines. */
  lemma {:induction false} FirstSeenInOrder(lines: seq<Line>, i: nat, j: nat)
    requires i < j < |FirstSeen(lines)|
    ensures FirstLine(lines, FirstSeen(lines)[i]) < FirstLine(lines, FirstSeen(lines)[j])
  {
    hide FirstLine, FirstSeen, Requested;
    if lines != [] {
      var init, last := lines[..|lines| - 1], lines[|lines| - 1];
      assert lines == init + [last];
      RequestedSnoc(init, last);
      var a, b := FirstSeen(lines)[i], FirstSeen(lines)[j];
      assert a in FirstSeen(init);
      FirstLineKept(init, last, a);
      if b in Ids(init) {
        assert b == FirstSeen(init)[j];
        FirstLineKept(init, last, b);
        FirstSeenInOrder(init, i, j);
      }
    }
  }

  lemma FirstLineKept(init: seq<Line>, last: Line, p: PlantId)
    requires p in Ids(init)
    ensures p in Ids(init + [last]) && FirstLine(init + [last], p) == FirstLine(init, p)
  {
    hide FirstLine;
    assert (init + [last])[FirstLine(init, p)].plantId == p;
  }

  predicate InStock(plants: map<PlantId, Plant>, lines: seq<Line>, p: PlantId) {
    p in plants && plants[p].isActive && plants[p].stock >= Requested(lines, p)
  }

  /** The first position of `order` whose plant is inactive or short of stock, or the end of it. */
  function FirstShort(plants: map<PlantId, Plant>, lines: seq<Line>, order: seq<PlantId>): (i: nat)
    ensures i <= |order|
    ensures i < |order| ==> !InStock(plants, lines, order[i])
    ensures forall j :: 0 <= j < i ==> InStock(plants, lines, order[j])
  {
    if order == [] || !InStock(plants, lines, order[0]) then 0 else 1 + FirstShort(plants, lines, order[1..])
  }

  /** When each error is given, the plants taken in the order of their first line. */
  lemma {:induction false} RefusalReason(plants: map<PlantId, Plant>, lines: seq<Line>)
    ensures var error, order := CheckError(plants, lines), FirstSeen(lines);
            var i := FirstShort(plants, lines, order);
            (error == Some(PlantNotFound) <==> exists p :: p in Ids(lines) && p !in plants) &&
            (error == Some(InsufficientStock) <==>
             Ids(lines) <= plants.Keys && i < |order| && plants[order[i]].isActive) &&
            (error == Some(PlantUnavailable) <==>
             Ids(lines) <= plants.Keys &&
             if i < |order| then !plants[order[i]].isActive
             else exists p :: p in Ids(lines) && plants[p].priceVi == None) &&
            (error == Some(OrderTotalTooLarge) <==>
             (forall p :: p in Ids(lines) ==> CanSell(plants, p, Requested(lines, p))) &&
             Priced(plants, lines).total > MAX_TOTAL_AMOUNT) &&
            error in {None,
                      Some(PlantNotFound), Some(InsufficientStock), Some(PlantUnavailable), Some(OrderTotalTooLarge)}
  {
    hide Priced, StockError, FirstSeen, Requested, FirstShort;
    if Ids(lines) <= plants.Keys {
      var order := FirstSeen(lines);
      assert forall p :: p in order ==> p in plants;
      StockErrorKind(plants, lines, order);
      assert forall i :: 0 <= i < |lines| ==> lines[i].plantId in Ids(lines);
      UnsellableLine(plants, lines);
    } else {
      assert exists p :: p in Ids(lines) && p !in plants;
    }
  }

  lemma UnsellableLine(plants: map<PlantId, Plant>, lines: seq<Line>)
    ensures (exists i :: 0 <= i < |lines| && !Sellable(plants, lines[i].plantId)) <==>
            exists p :: p in Ids(lines) && !Sellable(plants, p)
  {
    if p :| p in Ids(lines) && !Sellable(plants, p) {
      var i :| 0 <= i < |lines| && lines[i].plantId == p;
    }
    assert forall i :: 0 <= i < |lines| ==> lines[i].plantId in Ids(lines);
  }

  lemma {:induction false} StockErrorKind(plants: map<PlantId, Plant>, lines: seq<Line>, order: seq<PlantId>)
    requires forall p :: p in order ==> p in plants
    ensures var i := FirstShort(plants, lines, order);
            StockError(plants, lines, order) ==
            if i == |order| then None
            else if plants[order[i]].isActive then Some(InsufficientStock)
            else Some(PlantUnavailable)
    ensures StockError(plants, lines, order) == None <==> forall p :: p in order ==> InStock(plants, lines, p)
  {
    hide Requested;
    if order != [] {
      StockErrorKind(plants, lines, order[1..]);
      assert order == [order[0]] + order[1..];
    }
  }

  /** What a placed order records: catalogue prices and names line by line, nothing paid, nothing processed yet. */
  lemma {:induction false} PlacedOrderContents(db: Db, request: Request, day: Day, i: nat)
    requires PlaceOrder(db, request, day).Success? && i < |request.lines|
    ensures var o, line := PlaceOrder(db, request, day).value.orders[|db.orders|], request.lines[i];
            line.plantId in db.plants && |o.items| == |request.lines| &&
            o.items[i].plantId == line.plantId && o.items[i].quantity == line.quantity &&
            Some(o.items[i].unitPrice) == db.plants[line.plantId].priceVi &&
            o.items[i].plantName == SnapshotName(db.plants[line.plantId]) &&
            o.status == Pending && o.payment == Unpaid && o.paidAt == None && o.createdAt == request.createdAt
  {
    hide Requested, NextNumber, Priced, SnapshotName, FirstSeen, StockError;
    CheckMeaning(db.plants, request.lines);
    assert request.lines[i].plantId in Ids(request.lines);
  }

  /** A quote stays exact until a price, an active flag or the existence of a quoted plant changes. */
  lemma {:induction false} QuoteIsCharged(quoted: map<PlantId, Plant>, db: Db, request: Request, day: Day)
    requires forall p :: p in Ids(request.lines) && p in db.plants ==>
                           p in quoted && quoted[p].priceVi == db.plants[p].priceVi &&
                           quoted[p].isActive == db.plants[p].isActive
    requires PlaceOrder(db, request, day).Success?
    ensures var o, quote := PlaceOrder(db, request, day).value.orders[|db.orders|], Priced(quoted, request.lines);
            o.subtotal == quote.subtotal && o.shippingFee == quote.shippingFee && o.total == quote.total &&
            ItemsTotal(o.items) == quote.subtotal
  {
    hide Requested, NextNumber, Priced, SnapshotName, Subtotal, ItemsTotal;
    var lines := request.lines;
    CheckMeaning(db.plants, lines);
    PricedFrame(db.plants, quoted, lines);
    assert forall j :: 0 <= j < |lines| ==> lines[j].plantId in Ids(lines);
    ItemsOfLines(db.plants, lines, 0);
    SubtotalOfPriced(db.plants, lines);
  }

  lemma SubtotalOfPriced(plants: map<PlantId, Plant>, lines: seq<Line>)
    ensures Priced(plants, lines).subtotal == Subtotal(plants, lines)
  {
  }

  // ----- What every stored order satisfies -----

  /** The sum of quantity times unit price over the stored snapshots. */
  function ItemsTotal(items: seq<Item>): int {
    if items == [] then 0
    else ItemsTotal(items[..|items| - 1]) + items[|items| - 1].unitPrice * items[|items| - 1].quantity
  }

  ghost predicate IssuedNumber(number: string) {
    exists day: Day, k: nat :: number == Number(day, k)
  }

  ghost predicate OrderOk(plants: map<PlantId, Plant>, o: Order) {
    && (forall item :: item in o.items ==> item.plantId in plants && item.quantity > 0)
    && o.subtotal == ItemsTotal(o.items)
    && o.shippingFee == (if o.items == [] then 0 else ShippingFeeFor(o.subtotal))
    && o.total == o.subtotal + o.shippingFee <= MAX_TOTAL_AMOUNT
    && IssuedNumber(o.number)
    && o.reference == (if o.payBy == BankTransfer then Some(PaymentReferenceFor(o.number)) else None)
  }

  ghost predicate DistinctNumbers(orders: seq<Order>) {
    forall i, j :: 0 <= i < j < |orders| ==> orders[i].number != orders[j].number
  }

  ghost predicate DbOk(db: Db) {
    && (forall p :: p in db.plants ==> db.plants[p].stock >= 0)
    && (forall i :: 0 <= i < |db.orders| ==> OrderOk(db.plants, db.orders[i]))
    && DistinctNumbers(db.orders)
  }

  /** On every day the allocated sequences are exactly 1..n. */
  ghost predicate DenseDays(orders: seq<Order>) {
    forall day: Day :: Dense(TakenOn(orders, day), day)
  }

  lemma {:induction false} ItemsOfLines(plants: map<PlantId, Plant>, lines: seq<Line>, p: PlantId)
    requires Ids(lines) <= plants.Keys
    ensures Ordered(ItemsFor(plants, lines), p) == Requested(lines, p)
    ensures (forall i :: 0 <= i < |lines| ==> Sellable(plants, lines[i].plantId)) ==>
              ItemsTotal(ItemsFor(plants, lines)) == Subtotal(plants, lines)
  {
    if lines != [] {
      var init := lines[..|lines| - 1];
      assert Ids(init) <= Ids(lines);
      assert ItemsFor(plants, lines)[..|lines| - 1] == ItemsFor(plants, init);
      ItemsOfLines(plants, init, p);
    }
  }

  lemma FreshNumber(orders: seq<Order>, day: Day)
    ensures NextNumber(orders, day) !in NumbersOf(orders)
  {
    hide NextSequence, Pad4;
    NumberInjective(day, NextSequence(TakenOn(orders, day), day), day, NextSequence(TakenOn(orders, day), day));
  }

  lemma NewOrderOk(plants: map<PlantId, Plant>, request: Request, orders: seq<Order>, day: Day)
    requires CheckError(plants, request.lines) == None && QuantitiesPositive(request.lines)
    ensures Ids(request.lines) <= plants.Keys
    ensures OrderOk(plants, NewOrder(plants, request, NextNumber(orders, day)))
  {
    hide NextSequence, Number, Requested, Subtotal, ItemsTotal, StockError, FirstSeen,
      PaymentReferenceFor, SnapshotName;
    var lines := request.lines;
    CheckMeaning(plants, lines);
    assert forall i :: 0 <= i < |lines| ==> lines[i].plantId in Ids(lines) && lines[i] in lines;
    ItemsOfLines(plants, lines, 0);
    var o := NewOrder(plants, request, NextNumber(orders, day));
    forall item | item in o.items
      ensures item.plantId in plants && item.quantity > 0
    {
      var i :| 0 <= i < |o.items| && o.items[i] == item;
    }
    assert lines != [] ==> Sellable(plants, lines[0].plantId);
  }

  /** Placing an order keeps the tables consistent: no stock below zero, no number used twice. */
  lemma {:induction false} PlaceKeepsOk(db: Db, request: Request, day: Day)
    requires DbOk(db) && PlaceOrder(db, request, day).Success?
    ensures DbOk(PlaceOrder(db, request, day).value)
  {
    hide CheckError, NextNumber, NewOrder, Requested, ItemsTotal, IssuedNumber;
    var db1 := PlaceOrder(db, request, day).value;
    CheckMeaning(db.plants, request.lines);
    NewOrderOk(db.plants, request, db.orders, day);
    FreshNumber(db.orders, day);
    NewOrderNumber(db.plants, request, NextNumber(db.orders, day));
    OrdersStayOk(db.plants, db1.plants, db1.orders);
    forall i | 0 <= i < |db.orders|
      ensures db1.orders[i].number != NextNumber(db.orders, day)
    {
      assert NumbersOf(db.orders)[i] == db.orders[i].number;
    }
  }

  lemma NewOrderNumber(plants: map<PlantId, Plant>, request: Request, number: string)
    requires Ids(request.lines) <= plants.Keys
    ensures NewOrder(plants, request, number).number == number
  {
  }

  /** Later catalogue changes never touch a stored order. */
  lemma OrdersStayOk(before: map<PlantId, Plant>, after: map<PlantId, Plant>, orders: seq<Order>)
    requires before.Keys <= after.Keys
    requires forall i :: 0 <= i < |orders| ==> OrderOk(before, orders[i])
    ensures forall i :: 0 <= i < |orders| ==> OrderOk(after, orders[i])
  {
    hide ItemsTotal, IssuedNumber, PaymentReferenceFor;
  }

  lemma {:induction false} PlaceKeepsDense(db: Db, request: Request, day: Day)
    requires DenseDays(db.orders) && PlaceOrder(db, request, day).Success?
    ensures var orders := PlaceOrder(db, request, day).value.orders;
            DenseDays(orders) &&
            orders[|db.orders|].number == Number(day, |TakenOn(db.orders, day)| + 1)
  {
    hide CheckError, NewOrder, Number, Pad4, Prefix, NextSequence;
    var orders := PlaceOrder(db, request, day).value.orders;
    var taken := TakenOn(db.orders, day);
    DenseNext(taken, day);
    CheckedIdsExist(db.plants, request.lines);
    NewOrderNumber(db.plants, request, NextNumber(db.orders, day));
    forall d: Day
      ensures Dense(TakenOn(orders, d), d)
    {
      assert Dense(TakenOn(db.orders, d), d);
      NumberInjective(d, 0, day, |taken| + 1);
      var n := Number(day, |taken| + 1);
      assert NumbersOf(orders) == NumbersOf(db.orders) + [n];
      assert TakenOn(orders, d) == if d == day then TakenOn(db.orders, d) + {n} else TakenOn(db.orders, d);
    }
  }

  // ----- Stock conservation -----

  function StockOf(plants: map<PlantId, Plant>, p: PlantId): int {
    if p in plants then plants[p].stock else 0
  }

  /** The quantity of `p` on the orders that are not cancelled. */
  function Committed(orders: seq<Order>, p: PlantId): int {
    if orders == [] then 0
    else
      var last := orders[|orders| - 1];
      Committed(orders[..|orders| - 1], p) + if last.status == Cancelled then 0 else Ordered(last.items, p)
  }

  /** Units of `p` on the shelf or on an order that still stands. */
  function Accounted(db: Db, p: PlantId): int {
    StockOf(db.plants, p) + Committed(db.orders, p)
  }

  function Counted(o: Order, p: PlantId): int {
    if o.status == Cancelled then 0 else Ordered(o.items, p)
  }

  lemma {:induction false} CommittedUpdate(orders: seq<Order>, i: nat, o: Order, p: PlantId)
    requires i < |orders|
    ensures Committed(orders[i := o], p) == Committed(orders, p) - Counted(orders[i], p) + Counted(o, p)
  {
    var n := |orders| - 1;
    if i == n {
      assert orders[i := o][..n] == orders[..n];
    } else {
      assert orders[i := o][..n] == orders[..n][i := o];
      CommittedUpdate(orders[..n], i, o, p);
    }
  }

  lemma {:induction false} PlaceConserves(db: Db, request: Request, day: Day, p: PlantId)
    requires PlaceOrder(db, request, day).Success?
    ensures Accounted(PlaceOrder(db, request, day).value, p) == Accounted(db, p)
  {
    hide CheckError, NextNumber, Requested, Ordered, Priced, PaymentReferenceFor;
    var db1 := PlaceOrder(db, request, day).value;
    CheckedIdsExist(db.plants, request.lines);
    ItemsOfLines(db.plants, request.lines, p);
    RequestedOutside(request.lines, p);
    assert db1.orders[..|db.orders|] == db.orders;
  }

  /** A status write conserves every plant exactly when the order was not cancelled before. */
  lemma {:induction false} StatusWriteConserves(db: Db, o: nat, target: OrderStatus, p: PlantId)
    requires o < |db.orders|
    requires forall item :: item in db.orders[o].items ==> item.plantId in db.plants
    ensures Accounted(WriteStatus(db, o, target), p) ==
            Accounted(db, p) + if db.orders[o].status == Cancelled then Ordered(db.orders[o].items, p) else 0
  {
    hide Ordered, Committed;
    var order := db.orders[o];
    CommittedUpdate(db.orders, o, order.(status := target), p);
    OrderedOutside(order.items, p);
    if p in ItemIds(order.items) {
      var item :| item in order.items && item.plantId == p;
    }
  }

  // ----- Serial runs -----

  /** An admin change of some fields of one plant row. */
  datatype Edit = Edit(
    name: Option<string>, nameVi: Option<Option<string>>, stock: Option<nat>,
    isActive: Option<bool>, priceVi: Option<Option<nat>>)

  function OrElse<T>(o: Option<T>, t: T): T {
    if o.Some? then o.value else t
  }

  function Edited(plant: Plant, e: Edit): Plant {
    Plant(OrElse(e.name, plant.name), OrElse(e.nameVi, plant.nameVi), OrElse(e.stock, plant.stock),
          OrElse(e.isActive, plant.isActive), OrElse(e.priceVi, plant.priceVi))
  }

  datatype Op =
    | Place(request: Request, day: Day)
    | WriteOrderStatus(o: nat, target: OrderStatus)
    | EditPlant(p: PlantId, edit: Edit)
    | AddPlant(p: PlantId, plant: Plant)

  predicate CanDo(db: Db, op: Op) {
    match op
    case Place(request, day) => PlaceOrder(db, request, day).Success?
    case WriteOrderStatus(o, _) => o < |db.orders|
    case EditPlant(p, _) => p in db.plants
    case AddPlant(p, plant) => p !in db.plants && plant.stock >= 0
  }

  function Do(db: Db, op: Op): Db
    requires CanDo(db, op)
  {
    match op
    case Place(request, day) => PlaceOrder(db, request, day).value
    case WriteOrderStatus(o, target) => WriteStatus(db, o, target)
    case EditPlant(p, edit) => db.(plants := db.plants[p := Edited(db.plants[p], edit)])
    case AddPlant(p, plant) => db.(plants := db.plants[p := plant])
  }

  predicate CanRun(db: Db, ops: seq<Op>)
    decreases |ops|
  {
    ops == [] || (CanDo(db, ops[0]) && CanRun(Do(db, ops[0]), ops[1..]))
  }

  function RunOps(db: Db, ops: seq<Op>): Db
    requires CanRun(db, ops)
    decreases |ops|
  {
    if ops == [] then db else RunOps(Do(db, ops[0]), ops[1..])
  }

  /** The status write is one `update_order_status` would make in this very state. */
  predicate Timely(db: Db, op: Op) {
    op.WriteOrderStatus? ==>
      op.o < |db.orders| && op.target != db.orders[op.o].status && TransitionAllowed(db.orders[op.o].status, op.target)
  }

  /** The call of the service behind an operation, on the tables it finds. */
  function Call(db: Db, op: Op): Result<Db, Error> {
    match op
    case Place(request, day) => PlaceOrder(db, request, day)
    case WriteOrderStatus(o, target) => UpdateStatus(db, o, target)
    case EditPlant(_, _) => if CanDo(db, op) then Success(Do(db, op)) else Failure(PlantNotFound)
    case AddPlant(_, _) => if CanDo(db, op) then Success(Do(db, op)) else Failure(ConstraintViolation)
  }

  /** The calls one after the other, as long as each succeeds. */
  function CallAll(db: Db, ops: seq<Op>): Result<Db, Error>
    decreases |ops|
  {
    if ops == [] then Success(db)
    else
      var r := Call(db, ops[0]);
      if r.Failure? then r else CallAll(r.value, ops[1..])
  }

  /** An operation is what its call does exactly when it is no status write, a timely one,
      or one that changes nothing. */
  lemma {:induction false} CallDoes(db: Db, op: Op)
    requires DbOk(db) && CanDo(db, op)
    ensures Call(db, op) == Success(Do(db, op)) <==>
            Timely(db, op) ||
            (op.target == db.orders[op.o].status && (op.target == Cancelled ==> db.orders[op.o].items == []))
  {
    hide PlaceOrder, TransitionAllowed, Ordered, ItemsTotal, IssuedNumber;
    if op.WriteOrderStatus? && op.target == db.orders[op.o].status {
      var order := db.orders[op.o];
      assert OrderOk(db.plants, order);
      assert db.orders[op.o := order.(status := op.target)] == db.orders;
      if order.items != [] {
        var p := order.items[0].plantId;
        assert order.items[0] in order.items;
        OrderedNotNegative(order.items, p);
        assert Restocked(db.plants, order.items)[p].stock != db.plants[p].stock;
      } else {
        assert Restocked(db.plants, order.items) == db.plants;
      }
    }
  }

  /** A run of timely operations is the run of their calls, all of which succeed. */
  lemma {:induction false} TimelyRunIsCalls(db: Db, ops: seq<Op>)
    requires DbOk(db) && CanRun(db, ops) && AllTimely(db, ops)
    ensures CallAll(db, ops) == Success(RunOps(db, ops))
    decreases |ops|
  {
    hide DbOk, CanDo, Do, Timely, Call;
    if ops != [] {
      CallDoes(db, ops[0]);
      DoKeepsOk(db, ops[0]);
      TimelyRunIsCalls(Do(db, ops[0]), ops[1..]);
    }
  }

  predicate AllTimely(db: Db, ops: seq<Op>)
    requires CanRun(db, ops)
    decreases |ops|
  {
    ops == [] || (Timely(db, ops[0]) && AllTimely(Do(db, ops[0]), ops[1..]))
  }

  /** The units an admin puts on the shelf of `p`, or takes off it, by this step. */
  function Recorded(db: Db, op: Op, p: PlantId): int {
    match op
    case EditPlant(q, edit) =>
      if q == p && q in db.plants && edit.stock.Some? then edit.stock.value - db.plants[q].stock else 0
    case AddPlant(q, plant) => if q == p then plant.stock else 0
    case _ => 0
  }

  function RecordedAll(db: Db, ops: seq<Op>, p: PlantId): int
    requires CanRun(db, ops)
    decreases |ops|
  {
    if ops == [] then 0 else Recorded(db, ops[0], p) + RecordedAll(Do(db, ops[0]), ops[1..], p)
  }

  lemma {:induction false} DoKeepsOk(db: Db, op: Op)
    requires DbOk(db) && CanDo(db, op)
    ensures DbOk(Do(db, op))
  {
    hide OrderOk, PlaceOrder, Ordered;
    match op
    case Place(request, day) => PlaceKeepsOk(db, request, day);
    case WriteOrderStatus(o, target) =>
      assert OrderOk(db.plants, db.orders[o]);
      RestockNotNegative(db.plants, db.orders[o]);
      OrdersStayOk(db.plants, Do(db, op).plants, db.orders);
      StatusKeepsOrderOk(Do(db, op).plants, db.orders[o], target);
    case EditPlant(p, edit) => OrdersStayOk(db.plants, Do(db, op).plants, db.orders);
    case AddPlant(p, plant) => OrdersStayOk(db.plants, Do(db, op).plants, db.orders);
  }

  lemma StatusKeepsOrderOk(plants: map<PlantId, Plant>, o: Order, target: OrderStatus)
    requires OrderOk(plants, o)
    ensures OrderOk(plants, o.(status := target))
  {
  }

  lemma RestockNotNegative(plants: map<PlantId, Plant>, o: Order)
    requires OrderOk(plants, o)
    ensures forall p :: Ordered(o.items, p) >= 0
  {
    forall p
      ensures Ordered(o.items, p) >= 0
    {
      OrderedNotNegative(o.items, p);
    }
  }

  lemma {:induction false} OrderedNotNegative(items: seq<Item>, p: PlantId)
    requires forall item :: item in items ==> item.quantity > 0
    ensures Ordered(items, p) >= 0
    ensures p in ItemIds(items) ==> Ordered(items, p) > 0
  {
    if items != [] {
      var init, last := items[..|items| - 1], items[|items| - 1];
      assert items == init + [last];
      assert ItemIds(items) == ItemIds(init) + {last.plantId};
      OrderedNotNegative(init, p);
    }
  }

  /** Units of `p` that a status write counts a second time because the order was cancelled already. */
  function Miscounted(db: Db, op: Op, p: PlantId): int
    requires CanDo(db, op)
  {
    if op.WriteOrderStatus? && db.orders[op.o].status == Cancelled then Ordered(db.orders[op.o].items, p) else 0
  }

  function MiscountedAll(db: Db, ops: seq<Op>, p: PlantId): int
    requires CanRun(db, ops)
    decreases |ops|
  {
    if ops == [] then 0 else Miscounted(db, ops[0], p) + MiscountedAll(Do(db, ops[0]), ops[1..], p)
  }

  lemma {:induction false} DoAccounts(db: Db, op: Op, p: PlantId)
    requires DbOk(db) && CanDo(db, op)
    ensures Accounted(Do(db, op), p) == Accounted(db, p) + Recorded(db, op, p) + Miscounted(db, op, p)
    ensures Miscounted(db, op, p) >= 0
    ensures Timely(db, op) ==> Miscounted(db, op, p) == 0
  {
    hide PlaceOrder, Committed, ItemsTotal, IssuedNumber;
    match op
    case Place(request, day) => PlaceConserves(db, request, day, p);
    case WriteOrderStatus(o, target) =>
      assert OrderOk(db.plants, db.orders[o]);
      OrderedNotNegative(db.orders[o].items, p);
      StatusWriteConserves(db, o, target, p);
    case EditPlant(q, edit) =>
    case AddPlant(q, plant) =>
  }

  /** Over any serial run the books are off by exactly what status writes on cancelled orders count twice. */
  lemma {:induction false} RunAccounts(db: Db, ops: seq<Op>, p: PlantId)
    requires DbOk(db) && CanRun(db, ops)
    ensures DbOk(RunOps(db, ops))
    ensures Accounted(RunOps(db, ops), p) == Accounted(db, p) + RecordedAll(db, ops, p) + MiscountedAll(db, ops, p)
    ensures MiscountedAll(db, ops, p) >= 0
    ensures AllTimely(db, ops) ==> MiscountedAll(db, ops, p) == 0
    decreases |ops|
  {
    hide DbOk, CanDo, Do, Accounted, Recorded, Timely, Miscounted;
    if ops != [] {
      DoKeepsOk(db, ops[0]);
      DoAccounts(db, ops[0], p);
      RunAccounts(Do(db, ops[0]), ops[1..], p);
    }
  }

  lemma {:induction false} RunKeepsDense(db: Db, ops: seq<Op>)
    requires DenseDays(db.orders) && CanRun(db, ops)
    ensures DenseDays(RunOps(db, ops).orders)
    decreases |ops|
  {
    hide DenseDays, CanDo, Do;
    if ops != [] {
      DoKeepsDense(db, ops[0]);
      RunKeepsDense(Do(db, ops[0]), ops[1..]);
    }
  }

  lemma {:induction false} RunConcat(db: Db, a: seq<Op>, b: seq<Op>)
    requires CanRun(db, a) && CanRun(RunOps(db, a), b)
    ensures CanRun(db, a + b) && RunOps(db, a + b) == RunOps(RunOps(db, a), b)
    ensures AllTimely(db, a) && AllTimely(RunOps(db, a), b) ==> AllTimely(db, a + b)
    decreases |a|
  {
    hide CanDo, Do, Timely;
    if a == [] {
      assert a + b == b;
    } else {
      RunConcat(Do(db, a[0]), a[1..], b);
      assert (a + b)[1..] == a[1..] + b;
    }
  }

  lemma {:induction false} DoKeepsDense(db: Db, op: Op)
    requires DenseDays(db.orders) && CanDo(db, op)
    ensures DenseDays(Do(db, op).orders)
  {
    hide PlaceOrder, Dense, TakenIn;
    match op
    case Place(request, day) => PlaceKeepsDense(db, request, day);
    case WriteOrderStatus(o, target) =>
      assert NumbersOf(Do(db, op).orders) == NumbersOf(db.orders);
      forall day: Day
        ensures Dense(TakenOn(Do(db, op).orders, day), day)
      {
        assert Dense(TakenOn(db.orders, day), day);
      }
    case EditPlant(q, edit) =>
    case AddPlant(q, plant) =>
  }

  // ----- One order over a run -----

  /** How many status changes an order in this state can still see. */
  function ChangesLeft(status: OrderStatus): nat {
    if status == Cancelled then 0 else 4 - FlowIndex(status)
  }

  /** The allowed changes are exactly the ones that use up what an order can still see. */
  lemma TransitionsGoForward(current: OrderStatus, target: OrderStatus)
    ensures target != current && TransitionAllowed(current, target) <==> ChangesLeft(target) < ChangesLeft(current)
  {
  }

  function StatusWrites(ops: seq<Op>, o: nat): nat {
    if ops == [] then 0
    else (if ops[0].WriteOrderStatus? && ops[0].o == o then 1 else 0) + StatusWrites(ops[1..], o)
  }

  function Restocks(ops: seq<Op>, o: nat): nat {
    if ops == [] then 0
    else (if ops[0].WriteOrderStatus? && ops[0].o == o && ops[0].target == Cancelled then 1 else 0) +
         Restocks(ops[1..], o)
  }

  /** The status an order starts the run with; an order placed during the run starts out pending. */
  function StartStatus(db: Db, o: nat): OrderStatus {
    if o < |db.orders| then db.orders[o].status else Pending
  }

  lemma DoKeepsOrder(db: Db, op: Op, o: nat)
    requires CanDo(db, op)
    ensures |db.orders| <= |Do(db, op).orders|
    ensures o < |db.orders| ==>
              Do(db, op).orders[o] ==
              if op.WriteOrderStatus? && op.o == o then db.orders[o].(status := op.target) else db.orders[o]
    ensures |db.orders| <= o < |Do(db, op).orders| ==> Do(db, op).orders[o].status == Pending
    ensures op.WriteOrderStatus? && op.o == o ==> o < |db.orders|
  {
    hide CheckError, Priced, NextNumber;
    if op.Place? {
      CheckedIdsExist(db.plants, op.request.lines);
    }
  }

  /** An order is restocked exactly once if it ends up cancelled, never otherwise,
      and changes status at most four times. */
  lemma {:induction false} OrderHistory(db: Db, ops: seq<Op>, o: nat)
    requires CanRun(db, ops) && AllTimely(db, ops)
    ensures |db.orders| <= |RunOps(db, ops).orders|
    ensures var start, last := StartStatus(db, o), StartStatus(RunOps(db, ops), o);
            (StatusWrites(ops, o) == 0 ==> last == start) &&
            StatusWrites(ops, o) + ChangesLeft(last) <= ChangesLeft(start) &&
            Restocks(ops, o) == if last == Cancelled && start != Cancelled then 1 else 0
    ensures o < |db.orders| ==>
              var before, after := db.orders[o], RunOps(db, ops).orders[o];
              after == before.(status := after.status)
    decreases |ops|
  {
    hide Do, CanDo;
    if ops != [] {
      DoKeepsOrder(db, ops[0], o);
      OrderHistory(Do(db, ops[0]), ops[1..], o);
    }
  }
}
